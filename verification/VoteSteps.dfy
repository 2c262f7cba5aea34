/**
 Elections without logs: the elementary changes that votes, counters and roles undergo,
 each shown to keep Voting. Nothing here depends on what the logs hold.
 */
module VoteSteps {
  import opened RaftTypes
  import opened Handlers
  import opened Clusters
  import opened Invariants

  // ----- Quorums -----

  lemma SelfMajority(cfg: Config, v: Id)
    requires v in cfg.members
    ensures |Self(cfg, v).peers| == |cfg.members| - 1
    ensures Majority(Self(cfg, v)) == |cfg.members| / 2 + 1
  {
    assert cfg.members == (cfg.members - {v}) + {v};
  }

  lemma SubsetSize<T>(a: set<T>, b: set<T>)
    requires a <= b
    ensures |a| <= |b|
  {
    assert b == a + (b - a);
  }

  /** A quorum meets every set that is large enough. */
  lemma QuorumsMeet(cfg: Config, a: set<Id>, b: set<Id>) returns (v: Id)
    requires IsQuorum(cfg, a) && MeetsQuorums(cfg, b)
    ensures v in a && v in b
  {
    SubsetSize(a + b, cfg.members);
    assert |a + b| + |a * b| == |a| + |b|;
    assert a * b != {};
    v :| v in a * b;
  }

  // ----- One node's votes change -----

  ghost predicate SameCast(n: Node, n': Node) {
    && n'.currentTerm == n.currentTerm && n'.votedFor == n.votedFor && n'.role == n.role
    && n'.votes == n.votes && n'.won == n.won
  }

  ghost predicate VotesGrow(s: Cluster, s': Cluster) {
    && s'.nodes.Keys == s.nodes.Keys
    && (forall v :: v in s.nodes ==> s.nodes[v].currentTerm <= s'.nodes[v].currentTerm)
    && (forall key :: key in s.firstVote ==> key in s'.firstVote && s'.firstVote[key] == s.firstVote[key])
    && (forall t :: t in s.reigns ==>
          t in s'.reigns && s'.reigns[t].leader == s.reigns[t].leader && s'.reigns[t].electors == s.reigns[t].electors)
    && (forall key :: key in s.ballots ==> key in s'.ballots)
    && s.voteReqs <= s'.voteReqs && s.returned <= s'.returned
  }

  /** Only v votes, counts or comes to lead. */
  ghost predicate VotesAt(s: Cluster, s': Cluster, v: Id) {
    && v in s.nodes && VotesGrow(s, s')
    && (forall q :: q in s.nodes && q != v ==> SameCast(s.nodes[q], s'.nodes[q]))
    && (forall key :: key in s'.firstVote ==> key in s.firstVote || (key.id == v && key.term <= s'.nodes[v].currentTerm))
    && (forall t :: t in s'.reigns ==> t in s.reigns || s'.reigns[t].leader == v)
    && (forall key :: key in s'.ballots ==>
          key.id == v || (key in s.ballots && s'.ballots[key].counted == s.ballots[key].counted))
  }

  /** What remains to be shown: v itself, and whatever is new. */
  ghost predicate NewVotes(cfg: Config, s: Cluster, s': Cluster, v: Id)
    requires v in s'.nodes
  {
    && Casts(s', v)
    && (forall t :: t in s'.reigns ==> t in s.reigns || ReignVote(cfg, s', t))
    && (forall key :: key in s'.ballots ==>
          (key in s.ballots && s'.ballots[key].counted == s.ballots[key].counted) || BallotCast(s', key))
    && (forall r :: r in s'.voteReqs ==> r in s.voteReqs || RequestCast(s', r))
    && (forall r :: r in s'.parked ==> r in s.parked || (r in s'.voteReqs && ParkedOk(s', r)))
    && (forall r :: r in s'.voteReplies ==> r in s.voteReplies || ReplyCast(s', r))
    && (forall m :: m in s'.appends ==> m in s.appends || FromLeader(s', m))
    && (forall r :: r in s'.appendReplies ==> r in s.appendReplies || RefusalForm(r))
  }

  lemma VotedForStays(s: Cluster, s': Cluster, t: nat, v: Id, c: Id)
    requires VotesGrow(s, s') && VotedFor(s, t, v, c)
    ensures VotedFor(s', t, v, c)
  {
  }

  lemma OtherCasts(s: Cluster, s': Cluster, v: Id, q: Id)
    requires VotesAt(s, s', v) && q in s.nodes && q != v && Casts(s, q)
    ensures q in s'.nodes && Casts(s', q)
  {
    assert SameCast(s.nodes[q], s'.nodes[q]);
  }

  lemma CastsAssemble(s: Cluster, s': Cluster, v: Id)
    requires CastVotes(s) && VotesAt(s, s', v) && v in s'.nodes && Casts(s', v)
    ensures CastVotes(s')
  {
    hide Casts;
    forall q | q in s'.nodes ensures Casts(s', q) {
      if q != v {
        OtherCasts(s, s', v, q);
      }
    }
    forall key | key in s'.firstVote ensures key.id in s'.nodes && key.term <= s'.nodes[key.id].currentTerm {
      if key in s.firstVote {
        assert s.nodes[key.id].currentTerm <= s'.nodes[key.id].currentTerm;
      }
    }
  }

  lemma ReignsAssemble(cfg: Config, s: Cluster, s': Cluster)
    requires ReignVotes(cfg, s) && VotesGrow(s, s')
    requires forall t :: t in s'.reigns ==> t in s.reigns || ReignVote(cfg, s', t)
    ensures ReignVotes(cfg, s')
  {
    forall t | t in s'.reigns ensures ReignVote(cfg, s', t) {
      assert t in s.reigns ==> ReignVote(cfg, s, t);
    }
  }

  lemma BallotStays(s: Cluster, s': Cluster, key: TermId)
    requires VotesGrow(s, s') && key in s.ballots && BallotCast(s, key)
    requires key in s'.ballots && s'.ballots[key].counted == s.ballots[key].counted
    ensures BallotCast(s', key)
  {
    forall v | v in s.ballots[key].counted ensures VotedFor(s', key.term, v, key.id) {
      VotedForStays(s, s', key.term, v, key.id);
    }
  }

  lemma BallotsAssemble(s: Cluster, s': Cluster)
    requires BallotCasts(s) && VotesGrow(s, s')
    requires forall key :: key in s'.ballots ==>
               (key in s.ballots && s'.ballots[key].counted == s.ballots[key].counted) || BallotCast(s', key)
    ensures BallotCasts(s')
  {
    hide BallotCast;
    forall key | key in s'.ballots ensures BallotCast(s', key) {
      if key in s.ballots && s'.ballots[key].counted == s.ballots[key].counted {
        BallotStays(s, s', key);
      }
    }
  }

  lemma ReplyStays(s: Cluster, s': Cluster, r: VoteReply)
    requires VotesGrow(s, s') && ReplyCast(s, r)
    ensures ReplyCast(s', r)
  {
    if VotedFor(s, r.req.term, r.req.to, r.req.candidate) {
      VotedForStays(s, s', r.req.term, r.req.to, r.req.candidate);
    }
  }

  lemma MessagesStay(s: Cluster, s': Cluster)
    requires VotesGrow(s, s')
    ensures forall req :: RequestCast(s, req) ==> RequestCast(s', req)
    ensures forall req :: ParkedOk(s, req) ==> ParkedOk(s', req)
    ensures forall r :: ReplyCast(s, r) ==> ReplyCast(s', r)
    ensures forall m :: FromLeader(s, m) ==> FromLeader(s', m)
  {
    forall r | ReplyCast(s, r) ensures ReplyCast(s', r) {
      ReplyStays(s, s', r);
    }
  }

  lemma VotesAreAt(s: Cluster, s': Cluster, v: Id)
    requires VotesAt(s, s', v)
    ensures VotesGrow(s, s') && v in s'.nodes && s'.nodes.Keys == s.nodes.Keys && s.voteReqs <= s'.voteReqs
  {
  }

  lemma VotingAssembles(cfg: Config, s: Cluster, s': Cluster, v: Id)
    requires Voting(cfg, s) && VotesAt(s, s', v) && v in s'.nodes && NewVotes(cfg, s, s', v)
    ensures Voting(cfg, s')
  {
    hide VotesAt, VotesGrow, Casts, CastVotes, ReignVotes, ReignVote, BallotCasts, BallotCast;
    hide RequestCast, ParkedOk, ReplyCast, FromLeader, RefusalForm;
    VotesAreAt(s, s', v);
    CastsAssemble(s, s', v);
    ReignsAssemble(cfg, s, s');
    BallotsAssemble(s, s');
    MessagesStay(s, s');
  }

  /** Votes, counters and roles stay as they are; logs, indices and replication may move. */
  ghost predicate Quiet(s: Cluster, s': Cluster) {
    && s'.nodes.Keys == s.nodes.Keys
    && (forall q :: q in s.nodes ==> SameCast(s.nodes[q], s'.nodes[q]))
    && s'.firstVote == s.firstVote && s'.ballots == s.ballots && s'.returned == s.returned
    && s'.voteReqs == s.voteReqs && s'.voteReplies == s.voteReplies && s'.parked == s.parked
    && s'.reigns.Keys == s.reigns.Keys
    && (forall t :: t in s.reigns ==>
          s'.reigns[t].leader == s.reigns[t].leader && s'.reigns[t].electors == s.reigns[t].electors)
    && (forall m :: m in s'.appends ==> m in s.appends || FromLeader(s', m))
    && (forall r :: r in s'.appendReplies ==> r in s.appendReplies || RefusalForm(r))
  }

  lemma QuietAt(s: Cluster, s': Cluster, v: Id)
    requires Quiet(s, s') && v in s.nodes && CastVotes(s)
    ensures VotesAt(s, s', v) && v in s'.nodes && Casts(s', v)
  {
    assert Casts(s, v) && SameCast(s.nodes[v], s'.nodes[v]);
  }

  lemma QuietNew(cfg: Config, s: Cluster, s': Cluster, v: Id)
    requires Quiet(s, s') && v in s'.nodes && Casts(s', v)
    ensures NewVotes(cfg, s, s', v)
  {
    hide Casts, ReignVote, BallotCast, ReplyCast, RequestCast, FromLeader, RefusalForm;
  }

  lemma QuietVotes(cfg: Config, s: Cluster, s': Cluster, v: Id)
    requires Voting(cfg, s) && Quiet(s, s') && v in s.nodes
    ensures Voting(cfg, s')
  {
    hide Quiet, NewVotes, VotesAt, Casts;
    QuietAt(s, s', v);
    QuietNew(cfg, s, s', v);
    VotingAssembles(cfg, s, s', v);
  }

  /** No node, reign or vote changes; calls may return and messages may be new. */
  ghost predicate OnlyNews(s: Cluster, s': Cluster) {
    && s'.nodes == s.nodes && s'.reigns == s.reigns && s'.firstVote == s.firstVote && s'.ballots == s.ballots
    && s.voteReqs <= s'.voteReqs && s.returned <= s'.returned
  }

  lemma NewsAt(s: Cluster, s': Cluster, v: Id)
    requires OnlyNews(s, s') && v in s.nodes && CastVotes(s)
    ensures VotesAt(s, s', v) && v in s'.nodes && Casts(s', v)
  {
    assert Casts(s, v);
  }

  lemma NewsVotes(cfg: Config, s: Cluster, s': Cluster, v: Id)
    requires Voting(cfg, s) && OnlyNews(s, s') && v in s.nodes
    requires v in s'.nodes && (Casts(s', v) ==> NewVotes(cfg, s, s', v))
    ensures Voting(cfg, s')
  {
    hide OnlyNews, NewVotes, VotesAt, Casts;
    NewsAt(s, s', v);
    VotingAssembles(cfg, s, s', v);
  }

  // ----- Terms -----

  function SetNode(s: Cluster, v: Id, n: Node): Cluster {
    s.(nodes := s.nodes[v := n])
  }

  /** A node has no vote and no reign in a term it has not reached. */
  lemma FreshTerm(cfg: Config, s: Cluster, v: Id, t: nat)
    requires VotesInTerm(s) && ReignVotes(cfg, s) && v in s.nodes && t > s.nodes[v].currentTerm
    ensures TermId(t, v) !in s.firstVote
    ensures t in s.reigns ==> s.reigns[t].leader != v
  {
    assert t in s.reigns ==> ReignVote(cfg, s, t);
  }

  lemma NoBallotYet(s: Cluster, v: Id, t: nat)
    requires VotesInTerm(s) && BallotCasts(s) && v in s.nodes && t > s.nodes[v].currentTerm
    ensures TermId(t, v) !in s.firstVote && TermId(t, v) !in s.ballots
  {
    var key := TermId(t, v);
    assert key in s.ballots ==> BallotCast(s, key);
  }

  /** v's record changes, nothing else. */
  lemma SetNodeVotes(cfg: Config, s: Cluster, v: Id, n: Node)
    requires Voting(cfg, s) && v in s.nodes && n.currentTerm >= s.nodes[v].currentTerm && Casts(SetNode(s, v, n), v)
    ensures Voting(cfg, SetNode(s, v, n))
  {
    hide Casts, ReignVote, BallotCast, ReplyCast, RequestCast, FromLeader, RefusalForm, Voting;
    VotingAssembles(cfg, s, SetNode(s, v, n), v);
  }

  lemma DownCasts(cfg: Config, s: Cluster, v: Id, t: nat)
    requires VotesInTerm(s) && ReignVotes(cfg, s) && v in s.nodes && t > s.nodes[v].currentTerm
    ensures Casts(SetNode(s, v, BecomeFollower(s.nodes[v], t)), v)
  {
    FreshTerm(cfg, s, v, t);
    hide ReignVotes, VotesInTerm;
  }

  lemma DownVotes(cfg: Config, s: Cluster, v: Id, t: nat)
    requires Voting(cfg, s) && v in s.nodes && t > s.nodes[v].currentTerm
    ensures Voting(cfg, SetNode(s, v, BecomeFollower(s.nodes[v], t)))
  {
    hide Casts;
    DownCasts(cfg, s, v, t);
    SetNodeVotes(cfg, s, v, BecomeFollower(s.nodes[v], t));
  }

  lemma ResignCasts(s: Cluster, v: Id)
    requires v in s.nodes && Casts(s, v) && s.nodes[v].role == Candidate
    requires s.nodes[v].currentTerm in s.reigns && s.reigns[s.nodes[v].currentTerm].leader != v
    ensures Casts(SetNode(s, v, BecomeFollower(s.nodes[v], s.nodes[v].currentTerm)), v)
  {
  }

  /** A candidate recognises another leader of its term; its vote becomes free again. */
  lemma ResignVotes(cfg: Config, s: Cluster, v: Id)
    requires Voting(cfg, s) && v in s.nodes && s.nodes[v].role == Candidate
    requires s.nodes[v].currentTerm in s.reigns && s.reigns[s.nodes[v].currentTerm].leader != v
    ensures Voting(cfg, SetNode(s, v, BecomeFollower(s.nodes[v], s.nodes[v].currentTerm)))
  {
    hide Casts;
    assert Casts(s, v);
    ResignCasts(s, v);
    SetNodeVotes(cfg, s, v, BecomeFollower(s.nodes[v], s.nodes[v].currentTerm));
  }

  // ----- Candidates -----

  /** startElection up to the single-node shortcut. */
  function Campaign(cfg: Config, s: Cluster, v: Id): Cluster
    requires v in s.nodes
  {
    var n := s.nodes[v];
    var c := n.(role := Candidate, currentTerm := n.currentTerm + 1, votedFor := v, votes := 1, won := false);
    var key := TermId(c.currentTerm, v);
    s.(nodes := s.nodes[v := c],
       voteReqs := s.voteReqs + Canvass(Self(cfg, v), c),
       firstVote := s.firstVote[key := v],
       ballots := s.ballots[key := Ballot(n.log, {})])
  }

  lemma CampaignGrows(cfg: Config, s: Cluster, v: Id)
    requires v in s.nodes
    requires TermId(s.nodes[v].currentTerm + 1, v) !in s.firstVote && TermId(s.nodes[v].currentTerm + 1, v) !in s.ballots
    ensures VotesGrow(s, Campaign(cfg, s, v))
  {
    hide Canvass;
  }

  lemma CampaignAt(cfg: Config, s: Cluster, v: Id)
    requires v in s.nodes
    requires TermId(s.nodes[v].currentTerm + 1, v) !in s.firstVote && TermId(s.nodes[v].currentTerm + 1, v) !in s.ballots
    ensures VotesAt(s, Campaign(cfg, s, v), v)
  {
    CampaignGrows(cfg, s, v);
    hide VotesGrow, Canvass;
  }

  lemma CampaignCasts(cfg: Config, s: Cluster, v: Id)
    requires ValidConfig(cfg) && s.nodes.Keys == cfg.members && v in s.nodes
    requires s.nodes[v].currentTerm + 1 in s.reigns ==> s.reigns[s.nodes[v].currentTerm + 1].leader != v
    ensures Casts(Campaign(cfg, s, v), v)
  {
  }

  lemma CampaignNew(cfg: Config, s: Cluster, v: Id)
    requires ValidConfig(cfg) && s.nodes.Keys == cfg.members && v in s.nodes && Casts(Campaign(cfg, s, v), v)
    ensures NewVotes(cfg, s, Campaign(cfg, s, v), v)
  {
    hide Casts, ReignVote, ReplyCast, FromLeader, RefusalForm;
  }

  lemma CampaignVotes(cfg: Config, s: Cluster, v: Id)
    requires Voting(cfg, s) && v in s.nodes
    ensures Voting(cfg, Campaign(cfg, s, v))
  {
    hide Campaign, NewVotes, VotesAt, Casts;
    NoBallotYet(s, v, s.nodes[v].currentTerm + 1);
    FreshTerm(cfg, s, v, s.nodes[v].currentTerm + 1);
    CampaignAt(cfg, s, v);
    CampaignCasts(cfg, s, v);
    CampaignNew(cfg, s, v);
    VotesAreAt(s, Campaign(cfg, s, v), v);
    VotingAssembles(cfg, s, Campaign(cfg, s, v), v);
  }

  // ----- Casting a vote -----

  /** The handler's outcome when it grants the vote. */
  function Grant(s: Cluster, req: VoteReq): Cluster
    requires req.to in s.nodes
  {
    var n := s.nodes[req.to];
    RecordVote(s, VoteOutcome(n.(votedFor := req.candidate), VoteReply(req, n.currentTerm, true)))
  }

  function Deny(s: Cluster, req: VoteReq): Cluster
    requires req.to in s.nodes
  {
    var n := s.nodes[req.to];
    RecordVote(s, VoteOutcome(n, VoteReply(req, n.currentTerm, false)))
  }

  /** The guard of the grant: the vote is free or the candidate's, and its log is up to date. */
  ghost predicate Grantable(s: Cluster, req: VoteReq) {
    && req in s.voteReqs && req.to in s.nodes
    && var n := s.nodes[req.to];
       && n.currentTerm >= req.term
       && (n.votedFor == NO_VOTE || n.votedFor == req.candidate)
       && UpToDate(req.lastLogIndex, req.lastLogTerm, n.log)
  }

  /** Only a follower grants: a candidate or leader has voted for itself. */
  lemma GrantorFollows(s: Cluster, req: VoteReq)
    requires RequestCast(s, req) && Grantable(s, req) && Casts(s, req.to) && NO_VOTE !in s.nodes
    ensures s.nodes[req.to].role == Follower
  {
  }

  lemma GrantGrows(s: Cluster, req: VoteReq)
    requires req.to in s.nodes
    ensures VotesGrow(s, Grant(s, req))
  {
  }

  lemma GrantAt(s: Cluster, req: VoteReq)
    requires req.to in s.nodes
    ensures VotesAt(s, Grant(s, req), req.to)
  {
    GrantGrows(s, req);
    hide VotesGrow;
  }

  lemma GrantCasts(s: Cluster, req: VoteReq)
    requires RequestCast(s, req) && Grantable(s, req) && Casts(s, req.to) && NO_VOTE !in s.nodes
    ensures Casts(Grant(s, req), req.to)
    ensures VotedFor(Grant(s, req), s.nodes[req.to].currentTerm, req.to, req.candidate)
  {
    GrantorFollows(s, req);
  }

  lemma GrantNew(cfg: Config, s: Cluster, req: VoteReq)
    requires req.to in s.nodes && Casts(Grant(s, req), req.to) && req in s.voteReqs
    requires s.nodes[req.to].currentTerm >= req.term
    requires VotedFor(Grant(s, req), s.nodes[req.to].currentTerm, req.to, req.candidate)
    ensures NewVotes(cfg, s, Grant(s, req), req.to)
  {
    hide Casts, ReignVote, BallotCast, RequestCast, ParkedOk, FromLeader, RefusalForm, VotedFor;
  }

  lemma GrantVotes(cfg: Config, s: Cluster, req: VoteReq)
    requires Voting(cfg, s) && Grantable(s, req)
    ensures Voting(cfg, Grant(s, req))
  {
    assert RequestCast(s, req) && Casts(s, req.to);
    hide Grant, NewVotes, VotesAt, Casts, RequestCast;
    GrantAt(s, req);
    GrantCasts(s, req);
    GrantNew(cfg, s, req);
    VotesAreAt(s, Grant(s, req), req.to);
    VotingAssembles(cfg, s, Grant(s, req), req.to);
  }

  lemma DenyVotes(cfg: Config, s: Cluster, req: VoteReq)
    requires Voting(cfg, s) && req in s.voteReqs && req.to in s.nodes
    ensures Voting(cfg, Deny(s, req))
  {
    hide Casts, ReignVote, BallotCast, RequestCast, ParkedOk, FromLeader, RefusalForm, VotedFor, Voting;
    assert Deny(s, req).nodes == s.nodes;
    NewsVotes(cfg, s, Deny(s, req), req.to);
  }

  /** The handler gives the mutex up: the request waits at a node that has reached its term. */
  lemma ParkVotes(cfg: Config, s: Cluster, req: VoteReq)
    requires Voting(cfg, s) && req in s.voteReqs && req.to in s.nodes && s.nodes[req.to].currentTerm >= req.term
    ensures Voting(cfg, s.(parked := s.parked + {req}))
  {
    hide Casts, ReignVote, BallotCast, RequestCast, ReplyCast, FromLeader, RefusalForm, Voting;
    NewsVotes(cfg, s, s.(parked := s.parked + {req}), req.to);
  }

  /** Handlers that have finished wait no more. */
  lemma FinishVotes(cfg: Config, s: Cluster, v: Id, parked: set<VoteReq>, parkedAppends: set<Paused>)
    requires Voting(cfg, s) && v in s.nodes && parked <= s.parked
    ensures Voting(cfg, s.(parked := parked, parkedAppends := parkedAppends))
  {
    hide Casts, ReignVote, BallotCast, RequestCast, ReplyCast, ParkedOk, FromLeader, RefusalForm, Voting;
    NewsVotes(cfg, s, s.(parked := parked, parkedAppends := parkedAppends), v);
  }

  lemma ReturnedVotes(cfg: Config, s: Cluster, v: Id, call: Call)
    requires Voting(cfg, s) && v in s.nodes
    ensures Voting(cfg, s.(returned := s.returned + {call}))
  {
    hide Casts, ReignVote, BallotCast, RequestCast, ReplyCast, ParkedOk, FromLeader, RefusalForm, Voting;
    NewsVotes(cfg, s, s.(returned := s.returned + {call}), v);
  }

  // ----- Counting votes -----

  /** The candidate's counter goes up and the voter joins the counted set. */
  function Count(s: Cluster, reply: VoteReply): Cluster
    requires reply.req.candidate in s.nodes
    requires TermId(s.nodes[reply.req.candidate].currentTerm, reply.req.candidate) in s.ballots
  {
    var c := reply.req.candidate;
    var key := TermId(s.nodes[c].currentTerm, c);
    s.(nodes := s.nodes[c := s.nodes[c].(votes := s.nodes[c].votes + 1)],
       returned := s.returned + {CallOf(reply.req)},
       ballots := s.ballots[key := s.ballots[key].(counted := s.ballots[key].counted + {reply.req.to})])
  }

  ghost predicate Countable(s: Cluster, reply: VoteReply) {
    && reply in s.voteReplies && CallOf(reply.req) !in s.returned
    && reply.req.candidate in s.nodes && CountsVote(s.nodes[reply.req.candidate], reply)
    && TermId(s.nodes[reply.req.candidate].currentTerm, reply.req.candidate) in s.ballots
  }

  lemma CountAt(s: Cluster, reply: VoteReply)
    requires Countable(s, reply)
    ensures VotesAt(s, Count(s, reply), reply.req.candidate)
  {
  }

  lemma CountCasts(s: Cluster, reply: VoteReply)
    requires Countable(s, reply) && Casts(s, reply.req.candidate)
    requires BallotCast(s, TermId(s.nodes[reply.req.candidate].currentTerm, reply.req.candidate))
    ensures Casts(Count(s, reply), reply.req.candidate)
  {
    var key := TermId(s.nodes[reply.req.candidate].currentTerm, reply.req.candidate);
    assert reply.req.to !in s.ballots[key].counted;
  }

  lemma CountBallotCast(s: Cluster, reply: VoteReply)
    requires Countable(s, reply) && RequestCast(s, reply.req) && ReplyCast(s, reply)
    requires BallotCast(s, TermId(reply.req.term, reply.req.candidate))
    ensures BallotCast(Count(s, reply), TermId(reply.req.term, reply.req.candidate))
    ensures reply.term == reply.req.term
  {
    var key := TermId(reply.req.term, reply.req.candidate);
    var s' := Count(s, reply);
    assert VotesGrow(s, s');
    VotedForStays(s, s', key.term, reply.req.to, key.id);
    forall v | v in s.ballots[key].counted ensures VotedFor(s', key.term, v, key.id) {
      VotedForStays(s, s', key.term, v, key.id);
    }
  }

  lemma CountNew(cfg: Config, s: Cluster, reply: VoteReply)
    requires Countable(s, reply) && Casts(Count(s, reply), reply.req.candidate)
    requires BallotCast(Count(s, reply), TermId(reply.req.term, reply.req.candidate))
    ensures NewVotes(cfg, s, Count(s, reply), reply.req.candidate)
  {
    hide Casts, ReignVote, BallotCast, RequestCast, ReplyCast, ParkedOk, FromLeader, RefusalForm;
  }

  lemma CountVotes(cfg: Config, s: Cluster, reply: VoteReply)
    requires Voting(cfg, s) && Countable(s, reply)
    ensures Voting(cfg, Count(s, reply)) && reply.term == reply.req.term
  {
    assert RequestCast(s, reply.req) && ReplyCast(s, reply) && Casts(s, reply.req.candidate);
    assert BallotCast(s, TermId(reply.req.term, reply.req.candidate));
    hide Count, NewVotes, VotesAt, Casts, RequestCast, ReplyCast, BallotCast;
    CountAt(s, reply);
    CountCasts(s, reply);
    CountBallotCast(s, reply);
    CountNew(cfg, s, reply);
    VotesAreAt(s, Count(s, reply), reply.req.candidate);
    VotingAssembles(cfg, s, Count(s, reply), reply.req.candidate);
  }

  // ----- Election of a leader -----

  /** The election of c in its term is decided. */
  ghost predicate Elected(cfg: Config, s: Cluster, c: Id) {
    && c in s.nodes && s.nodes[c].role == Candidate
    && s.nodes[c].votes >= |cfg.members| / 2 + 1
  }

  function ElectorsOf(s: Cluster, c: Id): set<Id>
    requires c in s.nodes && TermId(s.nodes[c].currentTerm, c) in s.ballots
  {
    s.ballots[TermId(s.nodes[c].currentTerm, c)].counted + {c}
  }

  lemma ElectorsAreQuorum(cfg: Config, s: Cluster, c: Id)
    requires s.nodes.Keys == cfg.members && Elected(cfg, s, c) && Casts(s, c) && BallotCasts(s)
    ensures TermId(s.nodes[c].currentTerm, c) in s.ballots
    ensures IsQuorum(cfg, ElectorsOf(s, c))
  {
    var key := TermId(s.nodes[c].currentTerm, c);
    assert BallotCast(s, key);
    assert c !in s.ballots[key].counted;
  }

  /** An elector voted for c, unless its term already has another leader. */
  lemma ElectorVotes(cfg: Config, s: Cluster, c: Id, v: Id)
    requires Elected(cfg, s, c) && Casts(s, c) && v in ElectorsOf(s, c)
    requires BallotCast(s, TermId(s.nodes[c].currentTerm, c))
    ensures VotedFor(s, s.nodes[c].currentTerm, v, c)
  {
  }

  /** Election Safety at the moment of election: the term has had no leader. */
  lemma NoRival(cfg: Config, s: Cluster, c: Id)
    requires s.nodes.Keys == cfg.members && ReignVotes(cfg, s) && BallotCasts(s) && Elected(cfg, s, c) && Casts(s, c)
    ensures s.nodes[c].currentTerm !in s.reigns
  {
    var t := s.nodes[c].currentTerm;
    ElectorsAreQuorum(cfg, s, c);
    if t in s.reigns {
      assert ReignVote(cfg, s, t) && BallotCast(s, TermId(t, c));
      var v := QuorumsMeet(cfg, s.reigns[t].electors, ElectorsOf(s, c));
      ElectorVotes(cfg, s, c, v);
      assert false;
    }
  }

  /** The candidate's record as becomeLeaderInternal leaves it, before the first heartbeat. */
  function LeaderRecord(cfg: Config, n: Node, c: Id, won: bool): Node {
    n.(role := Leader, won := won,
       nextIndex := n.nextIndex + map q | q in Self(cfg, c).peers :: |n.log|,
       matchIndex := n.matchIndex + map q | q in Self(cfg, c).peers :: -1)
  }

  function Win(cfg: Config, s: Cluster, c: Id, won: bool): Cluster
    requires c in s.nodes
  {
    Crown(SetNode(s, c, LeaderRecord(cfg, s.nodes[c], c, won)), c)
  }

  /** With no leader in the term yet, every elector's first vote was for c. */
  lemma FirstVotes(cfg: Config, s: Cluster, c: Id)
    requires Elected(cfg, s, c) && Casts(s, c) && s.nodes[c].currentTerm !in s.reigns
    requires TermId(s.nodes[c].currentTerm, c) in s.ballots && BallotCast(s, TermId(s.nodes[c].currentTerm, c))
    ensures forall v :: v in ElectorsOf(s, c) ==>
              && TermId(s.nodes[c].currentTerm, v) in s.firstVote
              && s.firstVote[TermId(s.nodes[c].currentTerm, v)] == c
  {
  }

  lemma WinGrows(cfg: Config, s: Cluster, c: Id, won: bool)
    requires c in s.nodes && s.nodes[c].currentTerm !in s.reigns
    ensures VotesGrow(s, Win(cfg, s, c, won))
  {
  }

  lemma WinAt(cfg: Config, s: Cluster, c: Id, won: bool)
    requires c in s.nodes && s.nodes[c].currentTerm !in s.reigns
    ensures VotesAt(s, Win(cfg, s, c, won), c)
  {
    WinGrows(cfg, s, c, won);
    hide VotesGrow, LeaderRecord;
  }

  lemma WinCasts(cfg: Config, s: Cluster, c: Id, won: bool)
    requires c in s.nodes && Casts(s, c) && s.nodes[c].role == Candidate && s.nodes[c].currentTerm !in s.reigns
    ensures Casts(Win(cfg, s, c, won), c)
  {
  }

  lemma WinReignVote(cfg: Config, s: Cluster, c: Id, won: bool)
    requires c in s.nodes && s.nodes[c].currentTerm >= 1
    requires TermId(s.nodes[c].currentTerm, c) in s.ballots && IsQuorum(cfg, ElectorsOf(s, c))
    requires forall v :: v in ElectorsOf(s, c) ==>
              && TermId(s.nodes[c].currentTerm, v) in s.firstVote
              && s.firstVote[TermId(s.nodes[c].currentTerm, v)] == c
    ensures s.nodes[c].currentTerm in Win(cfg, s, c, won).reigns
    ensures ReignVote(cfg, Win(cfg, s, c, won), s.nodes[c].currentTerm)
  {
  }

  lemma WinNew(cfg: Config, s: Cluster, c: Id, won: bool)
    requires c in s.nodes && Casts(Win(cfg, s, c, won), c)
    requires s.nodes[c].currentTerm in Win(cfg, s, c, won).reigns
    requires ReignVote(cfg, Win(cfg, s, c, won), s.nodes[c].currentTerm)
    ensures NewVotes(cfg, s, Win(cfg, s, c, won), c)
  {
    hide Casts, ReignVote, BallotCast, RequestCast, ReplyCast, ParkedOk, FromLeader, RefusalForm;
  }

  lemma WinVoting(cfg: Config, s: Cluster, c: Id, won: bool)
    requires Voting(cfg, s) && Elected(cfg, s, c)
    ensures s.nodes[c].currentTerm !in s.reigns && Voting(cfg, Win(cfg, s, c, won))
  {
    assert Casts(s, c) && s.nodes[c].currentTerm >= 1;
    hide Win, NewVotes, VotesAt, Casts, BallotCast, ReignVote, IsQuorum;
    NoRival(cfg, s, c);
    ElectorsAreQuorum(cfg, s, c);
    FirstVotes(cfg, s, c);
    WinAt(cfg, s, c, won);
    WinCasts(cfg, s, c, won);
    WinReignVote(cfg, s, c, won);
    WinNew(cfg, s, c, won);
    VotesAreAt(s, Win(cfg, s, c, won), c);
    VotingAssembles(cfg, s, Win(cfg, s, c, won), c);
  }
}
