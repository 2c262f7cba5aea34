/**
 Votes, vote counting and the election of a leader keep Base.
 */
module Elections {
  import opened RaftTypes
  import opened Handlers
  import opened Clusters
  import opened Invariants
  import opened Growth
  import opened Persistence
  import opened LogSteps
  import opened CrownMerge
  import opened VoteSteps
  import opened BaseSteps

  // ----- The up-to-date check -----

  /** The last term of a coherent log bounds the terms in it. */
  lemma LastTermIsLargest(s: Cluster, x: Log, i: nat)
    requires ReignLogs(s) && Coherent(s.reigns, x) && i < |x|
    ensures x[i].term <= LastTerm(x)
    ensures LastTerm(x) in s.reigns && x <= s.reigns[LastTerm(x)].log
  {
    var last := x[|x| - 1].term;
    assert x[..|x| - 1 + 1] == x;
    assert ReignLog(s.reigns, last);
    assert x[i] == s.reigns[last].log[i];
  }

  /** A log ending in a later term than t reaches past what it shares with term t's leader. */
  lemma LaterTermIsLonger(s: Cluster, b: Log, t: nat, k: nat)
    requires ReignLogs(s) && Own(s.reigns, t, k)
    requires b != [] && LastTerm(b) in s.reigns && t < LastTerm(b)
    requires b <= s.reigns[LastTerm(b)].log && s.reigns[t].log[..k] <= s.reigns[LastTerm(b)].log
    ensures s.reigns[t].log[..k] <= b
  {
    var ll := s.reigns[LastTerm(b)].log;
    var i := |b| - 1;
    assert ReignLog(s.reigns, t);
    assert b[i] == ll[i];
    forall j | 0 <= j < k ensures ll[j].term <= t {
      assert s.reigns[t].log[..k][j] == ll[j];
    }
    PrefixOfSame(s.reigns[t].log[..k], b, ll);
  }

  lemma UpToDateHolds(cfg: Config, s: Cluster, v: Id, b: Log, t: nat, k: nat)
    requires LogPart(cfg, s) && v in s.nodes && Coherent(s.reigns, b)
    requires UpToDate(|b| - 1, LastTerm(b), s.nodes[v].log)
    requires Own(s.reigns, t, k) && k <= Acked(s.acked, t, v)
    ensures Holds(cfg, s, t, k, b)
  {
    var x := s.nodes[v].log;
    assert Holds(cfg, s, t, k, x);
    if !Blocked(cfg, s, t, k) {
      assert NodeLog(s, v);
      assert x[k - 1] == s.reigns[t].log[..k][k - 1];
      LastTermIsLargest(s, x, k - 1);
      assert b != [];
      LastTermIsLargest(s, b, |b| - 1);
      if LastTerm(b) == LastTerm(x) {
        PrefixOfSame(x, b, s.reigns[LastTerm(x)].log);
        PrefixTransitive(s.reigns[t].log[..k], x, b);
      } else {
        assert Holds(cfg, s, t, k, s.reigns[LastTerm(b)].log);
        LaterTermIsLonger(s, b, t, k);
      }
    }
  }

  /** The log comparison makes a vote sound. */
  lemma VoteIsSound(cfg: Config, s: Cluster, v: Id, b: Log, t: nat)
    requires LogPart(cfg, s) && v in s.nodes && Coherent(s.reigns, b)
    requires UpToDate(|b| - 1, LastTerm(b), s.nodes[v].log)
    ensures VoteSound(cfg, s, t, v, b)
  {
    forall t0: nat, k: nat | t0 < t && Own(s.reigns, t0, k) && k <= Acked(s.acked, t0, v)
      ensures Holds(cfg, s, t0, k, b)
    {
      UpToDateHolds(cfg, s, v, b, t0, k);
    }
  }

  // ----- Casting a vote -----

  lemma GrantNode(s: Cluster, req: VoteReq)
    requires VoteReqOk(s, req) && Grantable(s, req) && NodeVote(s, req.to) && NO_VOTE !in s.nodes
    ensures NodeVote(Grant(s, req), req.to)
  {
    GrantCasts(s, req);
    GrantorFollows(s, req);
    hide Casts;
  }

  lemma GrantFacts(cfg: Config, s: Cluster, req: VoteReq)
    requires ValidConfig(cfg) && Leaders(cfg, s) && NodeVotes(s) && VoteReqOk(s, req) && Grantable(s, req)
    ensures NodeFacts(cfg, Grant(s, req), req.to)
  {
    assert NodeVote(s, req.to);
    GrantNode(s, req);
    GrantorFollows(s, req);
  }

  lemma GrantClimbs(cfg: Config, s: Cluster, req: VoteReq)
    requires req.to in s.nodes
    ensures ClimbsAt(s, Grant(s, req), req.to)
    ensures HistoryFacts(cfg, s, Grant(s, req)) && AppendMessageFacts(s, Grant(s, req))
  {
  }

  lemma GrantIsVote(s: Cluster, req: VoteReq)
    requires VoteReqOk(s, req) && Grantable(s, req) && NodeVote(s, req.to)
    ensures VotedFor(Grant(s, req), s.nodes[req.to].currentTerm, req.to, req.candidate)
  {
  }

  lemma GrantReply(cfg: Config, s: Cluster, req: VoteReq)
    requires VoteReqOk(s, req) && Grantable(s, req) && NodeVote(s, req.to) && LogPart(cfg, s)
    requires BallotOk(cfg, s, TermId(req.term, req.candidate))
    requires Grows(s, Grant(s, req))
    ensures VoteReplyOk(cfg, Grant(s, req), VoteReply(req, s.nodes[req.to].currentTerm, true))
  {
    var b := s.ballots[TermId(req.term, req.candidate)].log;
    if s.nodes[req.to].currentTerm == req.term {
      VoteIsSound(cfg, s, req.to, b, req.term);
      VoteSoundGrows(cfg, s, Grant(s, req), req.term, req.to, b);
      GrantIsVote(s, req);
    }
  }

  lemma GrantSteps(cfg: Config, s: Cluster, req: VoteReq)
    requires LogPart(cfg, s) && NodeVotes(s) && Ballots(cfg, s) && VoteMessages(cfg, s) && Grantable(s, req)
    ensures ClimbsAt(s, Grant(s, req), req.to)
    ensures HistoryFacts(cfg, s, Grant(s, req)) && AppendMessageFacts(s, Grant(s, req))
    ensures VoteMessageFacts(cfg, s, Grant(s, req))
  {
    hide *;
    GrantKnows(cfg, s, req);
    GrantClimbs(cfg, s, req);
    ClimbsThere(s, Grant(s, req), req.to);
    ClimbLogs(cfg, s, Grant(s, req));
    GrantReply(cfg, s, req);
    GrantMessages(cfg, s, req);
  }

  lemma GrantKnows(cfg: Config, s: Cluster, req: VoteReq)
    requires NodeVotes(s) && Ballots(cfg, s) && VoteMessages(cfg, s) && Grantable(s, req)
    ensures req.to in s.nodes && VoteReqOk(s, req) && NodeVote(s, req.to)
    ensures TermId(req.term, req.candidate) in s.ballots && BallotOk(cfg, s, TermId(req.term, req.candidate))
  {
    hide BallotOk, NodeVote, VoteReplyOk;
    assert VoteReqOk(s, req);
  }

  /** The only new message is the reply. */
  lemma GrantMessages(cfg: Config, s: Cluster, req: VoteReq)
    requires req.to in s.nodes && VoteReplyOk(cfg, Grant(s, req), VoteReply(req, s.nodes[req.to].currentTerm, true))
    ensures VoteMessageFacts(cfg, s, Grant(s, req))
  {
    hide VoteReplyOk, VoteReqOk;
  }

  lemma GrantBase(cfg: Config, s: Cluster, req: VoteReq)
    requires Base(cfg, s) && Grantable(s, req)
    ensures Base(cfg, Grant(s, req)) && Grows(s, Grant(s, req))
  {
    GrantSteps(cfg, s, req);
    assert VoteReqOk(s, req);
    GrantFacts(cfg, s, req);
    ClimbBase(cfg, s, Grant(s, req), req.to);
  }

  /** A refusal changes nothing but the replies under way. */
  lemma DenyBase(cfg: Config, s: Cluster, req: VoteReq)
    requires Base(cfg, s) && req in s.voteReqs && req.to in s.nodes
    ensures Base(cfg, Deny(s, req)) && Grows(s, Deny(s, req))
  {
    DenyMessages(cfg, s, req);
    MessagesBase(cfg, s, Deny(s, req), req.to);
  }

  lemma DenyMessages(cfg: Config, s: Cluster, req: VoteReq)
    requires req in s.voteReqs && req.to in s.nodes
    ensures OnlyMessages(s, Deny(s, req))
    ensures VoteMessageFacts(cfg, s, Deny(s, req)) && AppendMessageFacts(s, Deny(s, req))
  {
    assert Deny(s, req).nodes == s.nodes;
  }

  lemma DecideIs(s: Cluster, req: VoteReq)
    requires req in s.voteReqs && req.to in s.nodes && s.nodes[req.to].currentTerm >= req.term
    ensures RecordVote(s, DecideVote(s.nodes[req.to], req)) == if Grantable(s, req) then Grant(s, req) else Deny(s, req)
  {
  }

  lemma DecideBase(cfg: Config, s: Cluster, req: VoteReq)
    requires Base(cfg, s) && req in s.voteReqs && req.to in s.nodes && s.nodes[req.to].currentTerm >= req.term
    ensures Base(cfg, RecordVote(s, DecideVote(s.nodes[req.to], req)))
    ensures Grows(s, RecordVote(s, DecideVote(s.nodes[req.to], req)))
  {
    DecideIs(s, req);
    if Grantable(s, req) {
      GrantBase(cfg, s, req);
    } else {
      DenyBase(cfg, s, req);
    }
  }

  /** The handler gives the mutex up: the request waits at a node that has reached its term. */
  lemma ParkBase(cfg: Config, s: Cluster, req: VoteReq)
    requires Base(cfg, s) && req in s.voteReqs && req.to in s.nodes && s.nodes[req.to].currentTerm >= req.term
    ensures Base(cfg, s.(parked := s.parked + {req})) && Grows(s, s.(parked := s.parked + {req}))
  {
    ParkMessages(cfg, s, req);
    MessagesBase(cfg, s, s.(parked := s.parked + {req}), req.to);
  }

  /** A handler that has finished waits no more. */
  lemma FinishBase(cfg: Config, s: Cluster, v: Id, parked: set<VoteReq>, parkedAppends: set<Paused>)
    requires Base(cfg, s) && v in s.nodes && parked <= s.parked
    ensures var s' := s.(parked := parked, parkedAppends := parkedAppends); Base(cfg, s') && Grows(s, s')
  {
    hide Base, Grows;
    FinishMessages(cfg, s, parked, parkedAppends);
    MessagesBase(cfg, s, s.(parked := parked, parkedAppends := parkedAppends), v);
  }

  lemma FinishMessages(cfg: Config, s: Cluster, parked: set<VoteReq>, parkedAppends: set<Paused>)
    requires parked <= s.parked
    ensures var s' := s.(parked := parked, parkedAppends := parkedAppends);
            OnlyMessages(s, s') && VoteMessageFacts(cfg, s, s') && AppendMessageFacts(s, s')
  {
  }

  lemma ParkMessages(cfg: Config, s: Cluster, req: VoteReq)
    requires req in s.voteReqs && req.to in s.nodes && s.nodes[req.to].currentTerm >= req.term
    ensures var s' := s.(parked := s.parked + {req});
            OnlyMessages(s, s') && VoteMessageFacts(cfg, s, s') && AppendMessageFacts(s, s')
  {
  }

  // ----- Counting votes -----

  /** A RequestVote call has returned; no node changes. */
  lemma ReturnedBase(cfg: Config, s: Cluster, v: Id, call: Call)
    requires Base(cfg, s) && v in s.nodes
    ensures Base(cfg, s.(returned := s.returned + {call})) && Grows(s, s.(returned := s.returned + {call}))
  {
    var s' := s.(returned := s.returned + {call});
    assert VoteMessageFacts(cfg, s, s') && AppendMessageFacts(s, s');
    MessagesBase(cfg, s, s', v);
  }

  lemma CountNode(cfg: Config, s: Cluster, reply: VoteReply)
    requires Leaders(cfg, s) && NodeVotes(s) && Ballots(cfg, s) && Countable(s, reply)
    ensures NodeFacts(cfg, Count(s, reply), reply.req.candidate)
  {
    var c := reply.req.candidate;
    assert NodeVote(s, c);
    assert BallotOk(cfg, s, TermId(s.nodes[c].currentTerm, c));
    CountCasts(s, reply);
    hide Casts, BallotOk;
  }

  lemma CountClimbs(cfg: Config, s: Cluster, reply: VoteReply)
    requires Countable(s, reply)
    ensures ClimbsAt(s, Count(s, reply), reply.req.candidate)
    ensures VoteMessageFacts(cfg, s, Count(s, reply)) && AppendMessageFacts(s, Count(s, reply))
  {
  }

  lemma CountedGranted(cfg: Config, s: Cluster, reply: VoteReply)
    requires NodeVotes(s) && VoteReqOk(s, reply.req) && VoteReplyOk(cfg, s, reply) && Countable(s, reply)
    ensures var req := reply.req;
            && reply.term == req.term && req.to != req.candidate && req.to in s.nodes
            && Granted(cfg, s, req.term, req.to, req.candidate, s.ballots[TermId(req.term, req.candidate)].log)
  {
  }

  lemma CountBallot(cfg: Config, s: Cluster, reply: VoteReply)
    requires Acks(s) && NodeVotes(s) && Countable(s, reply) && Grows(s, Count(s, reply))
    requires BallotOk(cfg, s, TermId(reply.req.term, reply.req.candidate))
    requires BallotCast(Count(s, reply), TermId(reply.req.term, reply.req.candidate))
    requires Granted(cfg, s, reply.req.term, reply.req.to, reply.req.candidate,
                     s.ballots[TermId(reply.req.term, reply.req.candidate)].log)
    ensures BallotOk(cfg, Count(s, reply), TermId(reply.req.term, reply.req.candidate))
  {
    hide Acks, NodeVotes, Grows, BallotCast, Granted, Coherent, VoteSound;
    var key := TermId(reply.req.term, reply.req.candidate);
    var s' := Count(s, reply);
    var b := s.ballots[key];
    CoherentGrows(s, s', b.log);
    VoteSoundGrows(cfg, s, s', key.term, key.id, b.log);
    forall v | v in b.counted || v == reply.req.to ensures Granted(cfg, s', key.term, v, key.id, b.log) {
      GrantedGrows(cfg, s, s', key.term, v, key.id, b.log);
    }
  }

  lemma CountOnlyHere(cfg: Config, s: Cluster, reply: VoteReply)
    requires Countable(s, reply) && BallotOk(cfg, Count(s, reply), TermId(reply.req.term, reply.req.candidate))
    ensures HistoryFacts(cfg, s, Count(s, reply))
  {
    hide BallotOk, ReignVote;
  }

  lemma CountHistory(cfg: Config, s: Cluster, reply: VoteReply)
    requires Acks(s) && VotePart(cfg, s) && Countable(s, reply) && Grows(s, Count(s, reply))
    ensures HistoryFacts(cfg, s, Count(s, reply))
  {
    assert VoteReplyOk(cfg, s, reply) && VoteReqOk(s, reply.req);
    assert BallotOk(cfg, s, TermId(reply.req.term, reply.req.candidate));
    hide Acks, NodeVotes, ReignVotes, Grows, BallotCast, Granted, Coherent, VoteSound, HistoryFacts;
    CountedGranted(cfg, s, reply);
    CountBallotCast(s, reply);
    CountBallot(cfg, s, reply);
    CountOnlyHere(cfg, s, reply);
  }

  lemma CountLogs(cfg: Config, s: Cluster, reply: VoteReply)
    requires LogPart(cfg, s) && Countable(s, reply)
    ensures Grows(s, Count(s, reply))
  {
    CountClimbs(cfg, s, reply);
    ClimbLogs(cfg, s, Count(s, reply));
  }

  lemma CountBase(cfg: Config, s: Cluster, reply: VoteReply)
    requires Base(cfg, s) && Countable(s, reply)
    ensures Base(cfg, Count(s, reply)) && Grows(s, Count(s, reply))
  {
    CountLogs(cfg, s, reply);
    CountClimbs(cfg, s, reply);
    CountNode(cfg, s, reply);
    CountHistory(cfg, s, reply);
    ClimbBase(cfg, s, Count(s, reply), reply.req.candidate);
  }

  // ----- Election of a leader -----

  lemma WinCrowns(cfg: Config, s: Cluster, c: Id, won: bool)
    requires c in s.nodes && s.nodes[c].currentTerm !in s.reigns
    requires TermId(s.nodes[c].currentTerm, c) in s.ballots
    ensures Crowns(s, Win(cfg, s, c, won), c, ElectorsOf(s, c))
  {
  }

  lemma WinVotes(cfg: Config, s: Cluster, c: Id)
    requires NodeVotes(s) && Ballots(cfg, s) && Elected(cfg, s, c) && s.nodes[c].currentTerm !in s.reigns
    ensures TermId(s.nodes[c].currentTerm, c) in s.ballots
    ensures forall v :: v in ElectorsOf(s, c) ==>
              && v in s.nodes && s.nodes[v].currentTerm >= s.nodes[c].currentTerm
              && TermId(s.nodes[c].currentTerm, v) in s.firstVote
              && s.firstVote[TermId(s.nodes[c].currentTerm, v)] == c
              && VoteSound(cfg, s, s.nodes[c].currentTerm, v, s.nodes[c].log)
  {
    assert NodeVote(s, c) && BallotOk(cfg, s, TermId(s.nodes[c].currentTerm, c));
  }

  lemma WinNode(cfg: Config, s: Cluster, c: Id, won: bool)
    requires c in s.nodes && NodeVote(s, c) && s.nodes[c].role == Candidate && s.nodes[c].currentTerm !in s.reigns
    ensures NodeVote(Win(cfg, s, c, won), c)
  {
  }

  lemma WinNext(cfg: Config, s: Cluster, c: Id, won: bool, q: Id)
    requires c in s.nodes && q in s.nodes && s.nodes[c].currentTerm !in s.reigns
    ensures NextOk(Win(cfg, s, c, won), s.nodes[c].currentTerm, q, |s.nodes[c].log|)
  {
    PartsByEnd(s.nodes[q].log, s.nodes[c].log);
  }

  lemma FreshIndices(cfg: Config, n: Node, c: Id, won: bool)
    requires n.matchIndex.Keys <= cfg.members - {c} && n.nextIndex.Keys <= cfg.members - {c}
    ensures var l := LeaderRecord(cfg, n, c, won);
            && l.nextIndex.Keys == cfg.members - {c} == l.matchIndex.Keys
            && (forall q :: q in l.nextIndex ==> l.nextIndex[q] == |n.log|)
            && (forall q :: q in l.matchIndex ==> l.matchIndex[q] == -1)
  {
  }

  /** All that a new leader needs: it starts at the end of its log and nothing is acknowledged. */
  lemma LeadsAfresh(cfg: Config, s: Cluster, c: Id)
    requires s.nodes.Keys == cfg.members && c in s.nodes && s.nodes[c].currentTerm in s.reigns
    requires s.nodes[c].nextIndex.Keys == cfg.members - {c} == s.nodes[c].matchIndex.Keys
    requires forall q :: q in s.nodes[c].nextIndex ==>
               s.nodes[c].nextIndex[q] == |s.nodes[c].log| && NextOk(s, s.nodes[c].currentTerm, q, |s.nodes[c].log|)
    requires forall q :: q in s.nodes[c].matchIndex ==> s.nodes[c].matchIndex[q] == -1
    ensures Leads(cfg, s, c)
  {
    hide NextOk;
  }

  lemma WinLeads(cfg: Config, s: Cluster, c: Id, won: bool)
    requires s.nodes.Keys == cfg.members && c in s.nodes && s.nodes[c].currentTerm !in s.reigns
    requires s.nodes[c].matchIndex.Keys <= cfg.members - {c} && s.nodes[c].nextIndex.Keys <= cfg.members - {c}
    ensures Leads(cfg, Win(cfg, s, c, won), c)
    ensures Win(cfg, s, c, won).nodes[c].matchIndex.Keys <= cfg.members - {c}
    ensures Win(cfg, s, c, won).nodes[c].nextIndex.Keys <= cfg.members - {c}
  {
    var s' := Win(cfg, s, c, won);
    assert s'.nodes[c] == LeaderRecord(cfg, s.nodes[c], c, won) && s'.nodes.Keys == s.nodes.Keys;
    FreshIndices(cfg, s.nodes[c], c, won);
    hide NextOk, Leads;
    forall q | q in cfg.members - {c} ensures NextOk(s', s.nodes[c].currentTerm, q, |s.nodes[c].log|) {
      WinNext(cfg, s, c, won, q);
    }
    LeadsAfresh(cfg, s', c);
  }

  /** No log parts from another only after its end. */
  lemma PartsByEnd(x: Log, y: Log)
    ensures x <= y || PartsBy(x, y, |y|)
  {
    if |x| <= |y| + 1 {
      assert x[..Min(|y| + 1, |x|)] == x;
    }
  }

  lemma WinMessages(cfg: Config, s: Cluster, c: Id, won: bool)
    requires c in s.nodes
    ensures VoteMessageFacts(cfg, s, Win(cfg, s, c, won)) && AppendMessageFacts(s, Win(cfg, s, c, won))
  {
    hide LeaderRecord, VoteReqOk, VoteReplyOk, ParkedOk, AppendOk, AppendReplyOk;
  }

  lemma WinOnlyAt(cfg: Config, s: Cluster, c: Id, won: bool)
    requires c in s.nodes && s.nodes[c].currentTerm !in s.reigns
    requires Grows(s, Win(cfg, s, c, won)) && Respects(s, Win(cfg, s, c, won))
    ensures OnlyAt(s, Win(cfg, s, c, won), c)
  {
    hide Respects, ReignGrows, AckGrows;
  }

  lemma WinReign(cfg: Config, s: Cluster, c: Id, won: bool)
    requires c in s.nodes && s.nodes[c].currentTerm >= 1
    requires TermId(s.nodes[c].currentTerm, c) in s.ballots && IsQuorum(cfg, ElectorsOf(s, c))
    requires forall v :: v in ElectorsOf(s, c) ==>
              && TermId(s.nodes[c].currentTerm, v) in s.firstVote
              && s.firstVote[TermId(s.nodes[c].currentTerm, v)] == c
    ensures HistoryFacts(cfg, s, Win(cfg, s, c, won))
  {
    var s' := Win(cfg, s, c, won);
    assert ReignVote(cfg, s', s.nodes[c].currentTerm);
  }

  lemma WinLogs(cfg: Config, s: Cluster, c: Id, won: bool)
    requires s.nodes.Keys == cfg.members && LogPart(cfg, s) && VotePart(cfg, s) && Elected(cfg, s, c)
    ensures s.nodes[c].currentTerm !in s.reigns
    ensures LogPart(cfg, Win(cfg, s, c, won)) && OnlyAt(s, Win(cfg, s, c, won), c)
    ensures VoteMessageFacts(cfg, s, Win(cfg, s, c, won)) && AppendMessageFacts(s, Win(cfg, s, c, won))
  {
    NoRival(cfg, s, c);
    ElectorsAreQuorum(cfg, s, c);
    WinVotes(cfg, s, c);
    WinCrowns(cfg, s, c, won);
    CrownLogs(cfg, s, Win(cfg, s, c, won), c, ElectorsOf(s, c));
    WinOnlyAt(cfg, s, c, won);
    WinMessages(cfg, s, c, won);
  }

  lemma WinFacts(cfg: Config, s: Cluster, c: Id, won: bool)
    requires Leaders(cfg, s) && VotePart(cfg, s) && Elected(cfg, s, c) && s.nodes[c].currentTerm !in s.reigns
    ensures NodeFacts(cfg, Win(cfg, s, c, won), c) && HistoryFacts(cfg, s, Win(cfg, s, c, won))
  {
    assert NodeVote(s, c);
    ElectorsAreQuorum(cfg, s, c);
    WinVotes(cfg, s, c);
    WinNode(cfg, s, c, won);
    WinLeads(cfg, s, c, won);
    WinReign(cfg, s, c, won);
  }

  lemma WinBase(cfg: Config, s: Cluster, c: Id, won: bool)
    requires Base(cfg, s) && Elected(cfg, s, c)
    ensures s.nodes[c].currentTerm !in s.reigns
    ensures Base(cfg, Win(cfg, s, c, won)) && Grows(s, Win(cfg, s, c, won))
  {
    WinLogs(cfg, s, c, won);
    WinFacts(cfg, s, c, won);
    Assemble(cfg, s, Win(cfg, s, c, won), c);
  }
}
