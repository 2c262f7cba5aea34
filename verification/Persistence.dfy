/**
 Facts about messages, elections and reigns carry over every step that lets logs
 grow soundly: they are proved here once for all steps.
 */
module Persistence {
  import opened RaftTypes
  import opened Clusters
  import opened Invariants
  import opened Growth

  /** The step respects what senders rely on about receivers' logs. */
  ghost predicate Respects(s: Cluster, s': Cluster)
    requires Grows(s, s')
  {
    && (forall t: nat, q, p: nat :: t in s.reigns && q in s.nodes && NextOk(s, t, q, p) ==>
          ReignGrows(s, s', t) && NextOk(s', t, q, p))
    && (forall t: nat, q :: t in s.reigns && q in s.nodes && Follows(s, t, q) ==>
          ReignGrows(s, s', t) && Follows(s', t, q))
  }

  ghost predicate Persists(s: Cluster, s': Cluster) {
    && Grows(s, s') && Respects(s, s')
    && s.voteReqs <= s'.voteReqs && s.appends <= s'.appends && s.returned <= s'.returned
    && forall key :: key in s.ballots ==> key in s'.ballots && s'.ballots[key].log == s.ballots[key].log
  }

  lemma AppendPersists(s: Cluster, s': Cluster, m: AppendReq)
    requires Persists(s, s') && AppendOk(s, m)
    ensures AppendOk(s', m)
  {
    assert ReignGrows(s, s', m.term);
    var ll := s.reigns[m.term].log;
    var ll' := s'.reigns[m.term].log;
    assert ll == ll'[..|ll|];
    assert ll'[m.First()..m.End()] == ll[m.First()..m.End()];
  }

  lemma AppendReplyPersists(s: Cluster, s': Cluster, r: AppendReply)
    requires Persists(s, s') && AppendReplyOk(s, r)
    ensures AppendReplyOk(s', r)
  {
    assert ReignGrows(s, s', r.req.term);
    assert AckGrows(s, s', r.req.term, r.req.to);
  }

  lemma ReignVotePersists(cfg: Config, s: Cluster, s': Cluster, t: nat)
    requires Grows(s, s') && t in s.reigns && ReignVote(cfg, s, t)
    ensures t in s'.reigns && ReignVote(cfg, s', t)
  {
    assert ReignGrows(s, s', t);
  }

  lemma VoteReplyPersists(cfg: Config, s: Cluster, s': Cluster, r: VoteReply)
    requires Persists(s, s') && Acks(s) && NodeVotes(s) && VoteReqOk(s, r.req) && VoteReplyOk(cfg, s, r)
    ensures VoteReplyOk(cfg, s', r)
  {
    var key := TermId(r.req.term, r.req.candidate);
    if r.granted && r.term == r.req.term {
      GrantedGrows(cfg, s, s', r.req.term, r.req.to, r.req.candidate, s.ballots[key].log);
    }
  }

  lemma BallotPersists(cfg: Config, s: Cluster, s': Cluster, key: TermId)
    requires Persists(s, s') && Acks(s) && NodeVotes(s)
    requires key in s.ballots && BallotOk(cfg, s, key) && s'.ballots[key] == s.ballots[key]
    ensures BallotOk(cfg, s', key)
  {
    var b := s.ballots[key];
    CoherentGrows(s, s', b.log);
    VoteSoundGrows(cfg, s, s', key.term, key.id, b.log);
    forall v | v in b.counted ensures Granted(cfg, s', key.term, v, key.id, b.log) {
      GrantedGrows(cfg, s, s', key.term, v, key.id, b.log);
    }
  }

  /** All messages sent before the step still satisfy their invariants after it. */
  lemma MessagesPersist(s: Cluster, s': Cluster)
    requires Persists(s, s') && Messages(s)
    ensures forall m :: m in s.appends ==> AppendOk(s', m)
    ensures forall r :: r in s.appendReplies ==> AppendReplyOk(s', r)
  {
    forall m | m in s.appends ensures AppendOk(s', m) { AppendPersists(s, s', m); }
    forall r | r in s.appendReplies ensures AppendReplyOk(s', r) { AppendReplyPersists(s, s', r); }
  }

  lemma VoteMessagesPersist(cfg: Config, s: Cluster, s': Cluster)
    requires Persists(s, s') && Acks(s) && NodeVotes(s) && VoteMessages(cfg, s)
    ensures forall req :: req in s.voteReqs ==> VoteReqOk(s', req)
    ensures forall req :: req in s.parked ==> req in s'.voteReqs && ParkedOk(s', req)
    ensures forall r :: r in s.voteReplies ==> VoteReplyOk(cfg, s', r)
  {
    forall r | r in s.voteReplies ensures VoteReplyOk(cfg, s', r) { VoteReplyPersists(cfg, s, s', r); }
  }

  lemma ReignVotesPersist(cfg: Config, s: Cluster, s': Cluster)
    requires Grows(s, s') && ReignVotes(cfg, s)
    ensures forall t :: t in s.reigns ==> t in s'.reigns && ReignVote(cfg, s', t)
  {
    forall t | t in s.reigns ensures t in s'.reigns && ReignVote(cfg, s', t) { ReignVotePersists(cfg, s, s', t); }
  }

  lemma BallotsPersist(cfg: Config, s: Cluster, s': Cluster)
    requires Persists(s, s') && Acks(s) && NodeVotes(s) && Ballots(cfg, s)
    ensures forall key :: key in s.ballots && s'.ballots[key] == s.ballots[key] ==> BallotOk(cfg, s', key)
  {
    forall key | key in s.ballots && s'.ballots[key] == s.ballots[key] ensures BallotOk(cfg, s', key) {
      BallotPersists(cfg, s, s', key);
    }
  }

  /** A node whose record the step leaves alone. */
  lemma NodeVotePersists(s: Cluster, s': Cluster, v: Id)
    requires Grows(s, s') && v in s.nodes && NodeVote(s, v)
    requires forall key :: key in s'.firstVote && key !in s.firstVote ==> key.id != v
    requires s'.nodes[v] == s.nodes[v]
    requires forall t :: t in s'.reigns && t !in s.reigns ==> s'.reigns[t].leader != v
    requires s.nodes[v].role == Leader ==> s'.reigns[s.nodes[v].currentTerm].log == s.nodes[v].log
    requires forall key :: key in s.ballots && key.id == v ==> key in s'.ballots && s'.ballots[key] == s.ballots[key]
    ensures NodeVote(s', v)
  {
    var n := s.nodes[v];
    if n.currentTerm in s.reigns {
      assert ReignGrows(s, s', n.currentTerm);
    }
    if n.votedFor != NO_VOTE {
      VotedForGrows(s, s', n.currentTerm, v, n.votedFor);
    }
  }

  lemma LeadsPersists(cfg: Config, s: Cluster, s': Cluster, v: Id)
    requires Grows(s, s') && Respects(s, s') && v in s.nodes && NodeVote(s, v)
    requires Leads(cfg, s, v) && s.nodes.Keys == cfg.members
    requires s'.nodes[v].role == Leader ==>
      && s.nodes[v].role == Leader
      && s'.nodes[v].currentTerm == s.nodes[v].currentTerm
      && s'.nodes[v].nextIndex == s.nodes[v].nextIndex
      && s'.nodes[v].matchIndex == s.nodes[v].matchIndex
      && |s.nodes[v].log| <= |s'.nodes[v].log|
    ensures Leads(cfg, s', v)
  {
    var n := s.nodes[v];
    if s'.nodes[v].role == Leader {
      forall q | q in n.matchIndex ensures n.matchIndex[q] < Acked(s'.acked, n.currentTerm, q) {
        assert AckGrows(s, s', n.currentTerm, q);
      }
    }
  }
}
