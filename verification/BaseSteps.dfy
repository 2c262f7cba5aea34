/**
 The elementary changes that the handlers are made of, each shown to keep Base.
 */
module BaseSteps {
  import opened RaftTypes
  import opened Handlers
  import opened Clusters
  import opened Invariants
  import opened Growth
  import opened Persistence
  import opened LogSteps
  import opened VoteSteps

  /** Only v's own record, votes, ballots and reigns change. */
  ghost predicate OnlyAt(s: Cluster, s': Cluster, v: Id) {
    && v in s.nodes && Persists(s, s')
    && (forall q :: q in s.nodes && q != v ==> s'.nodes[q] == s.nodes[q])
    && (forall key :: key in s'.firstVote ==> key in s.firstVote || (key.id == v && key.term <= s'.nodes[v].currentTerm))
    && (forall t :: t in s'.reigns ==>
          if t in s.reigns then s'.reigns[t] == s.reigns[t] || s.reigns[t].leader == v else s'.reigns[t].leader == v)
    && (forall key :: key in s'.ballots ==> key.id == v || (key in s.ballots && s'.ballots[key] == s.ballots[key]))
  }

  /** What remains to be shown about v, about new reigns and ballots, and about new messages. */
  ghost predicate NodeFacts(cfg: Config, s': Cluster, v: Id)
    requires v in s'.nodes
  {
    && NodeVote(s', v) && Leads(cfg, s', v)
    && s'.nodes[v].matchIndex.Keys <= cfg.members - {v} && s'.nodes[v].nextIndex.Keys <= cfg.members - {v}
  }

  ghost predicate HistoryFacts(cfg: Config, s: Cluster, s': Cluster) {
    && (forall t :: t in s'.reigns && t !in s.reigns ==> ReignVote(cfg, s', t))
    && (forall key :: key in s'.ballots ==> BallotOk(cfg, s', key) || (key in s.ballots && s'.ballots[key] == s.ballots[key]))
  }

  ghost predicate VoteMessageFacts(cfg: Config, s: Cluster, s': Cluster) {
    && (forall r :: r in s'.voteReqs ==> r in s.voteReqs || VoteReqOk(s', r))
    && (forall r :: r in s'.parked ==> r in s.parked || (r in s'.voteReqs && ParkedOk(s', r)))
    && (forall r :: r in s'.voteReplies ==> r in s.voteReplies || VoteReplyOk(cfg, s', r))
  }

  ghost predicate AppendMessageFacts(s: Cluster, s': Cluster) {
    && (forall m :: m in s'.appends ==> m in s.appends || AppendOk(s', m))
    && (forall r :: r in s'.appendReplies ==> r in s.appendReplies || AppendReplyOk(s', r))
  }

  lemma AssembleNode(cfg: Config, s: Cluster, s': Cluster, v: Id, q: Id)
    requires Leaders(cfg, s) && NodeVotes(s) && OnlyAt(s, s', v) && q in s'.nodes && q != v
    ensures NodeVote(s', q) && Leads(cfg, s', q)
  {
    assert NodeVote(s, q) && Leads(cfg, s, q);
    NodeVotePersists(s, s', q);
    LeadsPersists(cfg, s, s', q);
  }

  lemma AllVotesInTerm(s: Cluster, s': Cluster, v: Id)
    requires VotesInTerm(s) && OnlyAt(s, s', v)
    ensures VotesInTerm(s')
  {
    hide Respects;
    forall key | key in s'.firstVote ensures key.id in s'.nodes && key.term <= s'.nodes[key.id].currentTerm {
      if key in s.firstVote {
        assert s.nodes[key.id].currentTerm <= s'.nodes[key.id].currentTerm;
      }
    }
  }

  lemma AllIndices(cfg: Config, s: Cluster, s': Cluster, v: Id)
    requires Leaders(cfg, s) && OnlyAt(s, s', v) && NodeFacts(cfg, s', v)
    requires forall q :: q in s'.nodes ==> Leads(cfg, s', q)
    ensures Leaders(cfg, s')
  {
    hide NodeVote, Leads, Respects;
  }

  lemma AllNodes(cfg: Config, s: Cluster, s': Cluster, v: Id)
    requires Leaders(cfg, s) && NodeVotes(s) && OnlyAt(s, s', v) && NodeFacts(cfg, s', v)
    requires forall q :: q in s'.nodes ==> NodeVote(s', q) && Leads(cfg, s', q)
    ensures NodeVotes(s') && Leaders(cfg, s')
  {
    hide NodeVote, Leads, OnlyAt, NodeFacts, Leaders, VotesInTerm;
    AllVotesInTerm(s, s', v);
    AllIndices(cfg, s, s', v);
  }

  lemma FactsHere(cfg: Config, s: Cluster, s': Cluster, v: Id)
    requires OnlyAt(s, s', v) && NodeFacts(cfg, s', v)
    ensures v in s'.nodes && NodeVote(s', v) && Leads(cfg, s', v)
  {
  }

  lemma AssembleNodes(cfg: Config, s: Cluster, s': Cluster, v: Id)
    requires Leaders(cfg, s) && NodeVotes(s) && OnlyAt(s, s', v) && NodeFacts(cfg, s', v)
    ensures NodeVotes(s') && Leaders(cfg, s')
  {
    hide *;
    FactsHere(cfg, s, s', v);
    forall q | q in s'.nodes ensures NodeVote(s', q) && Leads(cfg, s', q) {
      if q != v {
        AssembleNode(cfg, s, s', v, q);
      }
    }
    AllNodes(cfg, s, s', v);
  }

  lemma Assemble(cfg: Config, s: Cluster, s': Cluster, v: Id)
    requires Base(cfg, s) && LogPart(cfg, s') && OnlyAt(s, s', v) && NodeFacts(cfg, s', v)
    requires HistoryFacts(cfg, s, s') && VoteMessageFacts(cfg, s, s') && AppendMessageFacts(s, s')
    ensures Base(cfg, s')
  {
    AssembleNodes(cfg, s, s', v);
    MessagesPersist(s, s');
    VoteMessagesPersist(cfg, s, s');
    ReignVotesPersist(cfg, s, s');
    BallotsPersist(cfg, s, s');
  }

  // ----- Terms and votes -----

  /** A step that moves terms and changes one node's record. */
  ghost predicate ClimbsAt(s: Cluster, s': Cluster, v: Id) {
    && v in s.nodes && Climbs(s, s')
    && (forall q :: q in s.nodes && q != v ==> s'.nodes[q] == s.nodes[q])
    && s.voteReqs <= s'.voteReqs && s.appends <= s'.appends && s.returned <= s'.returned
    && (forall key :: key in s.ballots ==> key in s'.ballots && s'.ballots[key].log == s.ballots[key].log)
    && (forall key :: key in s'.firstVote ==> key in s.firstVote || (key.id == v && key.term <= s'.nodes[v].currentTerm))
    && (forall key :: key in s'.ballots ==> key.id == v || (key in s.ballots && s'.ballots[key] == s.ballots[key]))
  }

  lemma ClimbBase(cfg: Config, s: Cluster, s': Cluster, v: Id)
    requires Base(cfg, s) && ClimbsAt(s, s', v) && NodeFacts(cfg, s', v)
    requires HistoryFacts(cfg, s, s') && VoteMessageFacts(cfg, s, s') && AppendMessageFacts(s, s')
    ensures Base(cfg, s') && Grows(s, s')
  {
    hide *;
    ClimbsThere(s, s', v);
    BaseHasLogs(cfg, s);
    ClimbLogs(cfg, s, s');
    ClimbsOnlyAt(s, s', v);
    Assemble(cfg, s, s', v);
  }

  lemma ClimbsThere(s: Cluster, s': Cluster, v: Id)
    requires ClimbsAt(s, s', v)
    ensures Climbs(s, s')
  {
  }

  lemma BaseHasLogs(cfg: Config, s: Cluster)
    requires Base(cfg, s)
    ensures LogPart(cfg, s)
  {
  }

  lemma ClimbsOnlyAt(s: Cluster, s': Cluster, v: Id)
    requires ClimbsAt(s, s', v) && Respects(s, s')
    ensures OnlyAt(s, s', v)
  {
  }

  /** A change of v's record that keeps its log and does not lower its term. */
  lemma SetNodeBase(cfg: Config, s: Cluster, v: Id, n: Node)
    requires Base(cfg, s) && v in s.nodes
    requires n.log == s.nodes[v].log && n.currentTerm >= s.nodes[v].currentTerm
    requires NodeFacts(cfg, SetNode(s, v, n), v)
    ensures Base(cfg, SetNode(s, v, n)) && Grows(s, SetNode(s, v, n))
  {
    SetNodeClimbs(cfg, s, v, n);
    ClimbBase(cfg, s, SetNode(s, v, n), v);
  }

  lemma SetNodeClimbs(cfg: Config, s: Cluster, v: Id, n: Node)
    requires v in s.nodes && n.log == s.nodes[v].log && n.currentTerm >= s.nodes[v].currentTerm
    ensures ClimbsAt(s, SetNode(s, v, n), v) && HistoryFacts(cfg, s, SetNode(s, v, n))
    ensures VoteMessageFacts(cfg, s, SetNode(s, v, n)) && AppendMessageFacts(s, SetNode(s, v, n))
  {
  }

  lemma SameNodeFacts(cfg: Config, s: Cluster, s': Cluster, v: Id)
    requires Leaders(cfg, s) && NodeVotes(s) && Grows(s, s') && Respects(s, s') && v in s.nodes
    requires s'.nodes == s.nodes && s'.reigns == s.reigns && s'.firstVote == s.firstVote && s'.ballots == s.ballots
    ensures NodeFacts(cfg, s', v)
  {
    assert NodeVote(s, v) && Leads(cfg, s, v);
    NodeVotePersists(s, s', v);
    LeadsPersists(cfg, s, s', v);
  }

  /** The nodes and the history stay as they are; messages may be new. */
  ghost predicate OnlyMessages(s: Cluster, s': Cluster) {
    && s'.nodes == s.nodes && s'.reigns == s.reigns && s'.acked == s.acked
    && s'.firstVote == s.firstVote && s'.ballots == s.ballots
    && s.voteReqs <= s'.voteReqs && s.appends <= s'.appends && s.returned <= s'.returned
  }

  lemma MessagesBase(cfg: Config, s: Cluster, s': Cluster, v: Id)
    requires Base(cfg, s) && OnlyMessages(s, s') && v in s.nodes
    requires VoteMessageFacts(cfg, s, s') && AppendMessageFacts(s, s')
    ensures Base(cfg, s') && Grows(s, s')
  {
    MessagesOnlyAt(cfg, s, s', v);
    SameNodeFacts(cfg, s, s', v);
    Assemble(cfg, s, s', v);
  }

  lemma MessagesOnlyAt(cfg: Config, s: Cluster, s': Cluster, v: Id)
    requires LogPart(cfg, s) && OnlyMessages(s, s') && v in s.nodes
    ensures LogPart(cfg, s') && OnlyAt(s, s', v) && HistoryFacts(cfg, s, s')
  {
    ClimbLogs(cfg, s, s');
  }

  lemma StepDownFacts(cfg: Config, s: Cluster, v: Id, t: nat)
    requires Leaders(cfg, s) && NodeVotes(s) && ReignVotes(cfg, s)
    requires v in s.nodes && t > s.nodes[v].currentTerm
    ensures NodeFacts(cfg, SetNode(s, v, BecomeFollower(s.nodes[v], t)), v)
  {
    hide Casts, ReignVotes, VotesInTerm;
    DownCasts(cfg, s, v, t);
  }

  lemma StepDownBase(cfg: Config, s: Cluster, v: Id, t: nat)
    requires Base(cfg, s) && v in s.nodes && t > s.nodes[v].currentTerm
    ensures Base(cfg, SetNode(s, v, BecomeFollower(s.nodes[v], t)))
    ensures Grows(s, SetNode(s, v, BecomeFollower(s.nodes[v], t)))
  {
    StepDownFacts(cfg, s, v, t);
    SetNodeBase(cfg, s, v, BecomeFollower(s.nodes[v], t));
  }

  lemma ResignFacts(cfg: Config, s: Cluster, v: Id)
    requires Leaders(cfg, s) && NodeVotes(s)
    requires v in s.nodes && s.nodes[v].role == Candidate
    requires s.nodes[v].currentTerm in s.reigns && s.reigns[s.nodes[v].currentTerm].leader != v
    ensures NodeFacts(cfg, SetNode(s, v, BecomeFollower(s.nodes[v], s.nodes[v].currentTerm)), v)
  {
    assert NodeVote(s, v);
    hide Casts;
    ResignCasts(s, v);
  }

  /** A candidate recognises another leader of its term; its vote becomes free again. */
  lemma ResignBase(cfg: Config, s: Cluster, v: Id)
    requires Base(cfg, s) && v in s.nodes && s.nodes[v].role == Candidate
    requires s.nodes[v].currentTerm in s.reigns && s.reigns[s.nodes[v].currentTerm].leader != v
    ensures Base(cfg, SetNode(s, v, BecomeFollower(s.nodes[v], s.nodes[v].currentTerm)))
    ensures Grows(s, SetNode(s, v, BecomeFollower(s.nodes[v], s.nodes[v].currentTerm)))
  {
    ResignFacts(cfg, s, v);
    SetNodeBase(cfg, s, v, BecomeFollower(s.nodes[v], s.nodes[v].currentTerm));
  }

  lemma CampaignClimbs(cfg: Config, s: Cluster, v: Id)
    requires v in s.nodes
    requires TermId(s.nodes[v].currentTerm + 1, v) !in s.firstVote && TermId(s.nodes[v].currentTerm + 1, v) !in s.ballots
    ensures ClimbsAt(s, Campaign(cfg, s, v), v)
  {
  }

  lemma CampaignNode(cfg: Config, s: Cluster, v: Id)
    requires ValidConfig(cfg) && Leaders(cfg, s) && NodeVotes(s) && ReignVotes(cfg, s) && v in s.nodes
    ensures NodeFacts(cfg, Campaign(cfg, s, v), v)
  {
    hide Casts;
    FreshTerm(cfg, s, v, s.nodes[v].currentTerm + 1);
    CampaignCasts(cfg, s, v);
  }

  lemma CampaignHistory(cfg: Config, s: Cluster, v: Id)
    requires v in s.nodes && LogPart(cfg, Campaign(cfg, s, v))
    ensures HistoryFacts(cfg, s, Campaign(cfg, s, v))
  {
    var s' := Campaign(cfg, s, v);
    var t := s'.nodes[v].currentTerm;
    assert NodeLog(s', v);
    assert VoteSound(cfg, s', t, v, s'.nodes[v].log);
    assert BallotOk(cfg, s', TermId(t, v));
  }

  lemma CampaignMessages(cfg: Config, s: Cluster, v: Id)
    requires ValidConfig(cfg) && Leaders(cfg, s) && v in s.nodes
    ensures VoteMessageFacts(cfg, s, Campaign(cfg, s, v)) && AppendMessageFacts(s, Campaign(cfg, s, v))
  {
  }

  lemma CampaignBase(cfg: Config, s: Cluster, v: Id)
    requires Base(cfg, s) && v in s.nodes
    ensures Base(cfg, Campaign(cfg, s, v)) && Grows(s, Campaign(cfg, s, v))
  {
    NoBallotYet(s, v, s.nodes[v].currentTerm + 1);
    CampaignClimbs(cfg, s, v);
    ClimbLogs(cfg, s, Campaign(cfg, s, v));
    CampaignNode(cfg, s, v);
    CampaignHistory(cfg, s, v);
    CampaignMessages(cfg, s, v);
    ClimbBase(cfg, s, Campaign(cfg, s, v), v);
  }
}
