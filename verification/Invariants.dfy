/**
 The invariants of the cluster. Voting, about votes and leaders alone, holds in every
 reachable state of every cluster; Base adds logs and replication, while no handler goes on
 late; Committing adds what the commit indices need.
 */
module Invariants {
  import opened RaftTypes
  import opened Clusters

  ghost predicate IsQuorum(cfg: Config, b: set<Id>) {
    b <= cfg.members && |b| >= |cfg.members| / 2 + 1
  }

  /** So many members that no quorum avoids them. */
  ghost predicate MeetsQuorums(cfg: Config, b: set<Id>) {
    b <= cfg.members && |b| >= |cfg.members| - |cfg.members| / 2
  }

  // ----- Logs -----

  /** Up to each of its entries, the log is the log of the leader of that entry's term. */
  ghost predicate Coherent(reigns: map<nat, Reign>, x: Log) {
    forall i :: 0 <= i < |x| ==> x[i].term in reigns && x[..i + 1] <= reigns[x[i].term].log
  }

  /** Entry k-1 of the log of term t's leader is of term t. */
  ghost predicate Own(reigns: map<nat, Reign>, t: nat, k: nat) {
    t in reigns && 0 < k <= |reigns[t].log| && reigns[t].log[k - 1].term == t
  }

  /** The members of b have left term t behind without storing k entries of its leader. */
  ghost predicate Missed(s: Cluster, t: nat, k: nat, b: set<Id>) {
    forall v :: v in b ==> v in s.nodes && s.nodes[v].currentTerm > t && Acked(s.acked, t, v) < k
  }

  /** Entry k-1 of term t can no longer be committed in term t. */
  ghost predicate Blocked(cfg: Config, s: Cluster, t: nat, k: nat) {
    exists b :: IsQuorum(cfg, b) && Missed(s, t, k, b)
  }

  /** x starts with the first k entries of term t's leader, unless they are blocked. */
  ghost predicate Holds(cfg: Config, s: Cluster, t: nat, k: nat, x: Log)
    requires Own(s.reigns, t, k)
  {
    s.reigns[t].log[..k] <= x || Blocked(cfg, s, t, k)
  }

  /** x holds all that v had stored of the leaders of earlier terms than t. */
  ghost predicate VoteSound(cfg: Config, s: Cluster, t: nat, v: Id, x: Log) {
    forall t0: nat, k: nat :: t0 < t && Own(s.reigns, t0, k) && k <= Acked(s.acked, t0, v) ==> Holds(cfg, s, t0, k, x)
  }

  ghost predicate ReignLog(reigns: map<nat, Reign>, t: nat)
    requires t in reigns
  {
    var r := reigns[t];
    && r.start <= |r.log|
    && Coherent(reigns, r.log)
    && (forall i :: 0 <= i < r.start ==> r.log[i].term < t)
    && (forall i :: r.start <= i < |r.log| ==> r.log[i].term == t)
  }

  ghost predicate ReignLogs(s: Cluster) {
    forall t :: t in s.reigns ==> ReignLog(s.reigns, t)
  }

  ghost predicate NodeLog(s: Cluster, v: Id)
    requires v in s.nodes
  {
    var n := s.nodes[v];
    && Coherent(s.reigns, n.log)
    && (forall i :: 0 <= i < |n.log| ==> n.log[i].term <= n.currentTerm)
    && (forall i :: 0 <= i < |n.log| && n.log[i].term == n.currentTerm ==> i < Acked(s.acked, n.currentTerm, v))
    && var a := Acked(s.acked, n.currentTerm, v);
       (a > 0 ==> n.currentTerm in s.reigns && a <= |s.reigns[n.currentTerm].log|
                  && s.reigns[n.currentTerm].log[..a] <= n.log)
  }

  ghost predicate NodeLogs(s: Cluster) {
    forall v :: v in s.nodes ==> NodeLog(s, v)
  }

  ghost predicate Acks(s: Cluster) {
    && (forall key :: key in s.acked ==>
          && key.term in s.reigns && key.id in s.nodes
          && key.term <= s.nodes[key.id].currentTerm
          && s.acked[key] <= |s.reigns[key.term].log|)
    && (forall t :: t in s.reigns ==> Acked(s.acked, t, s.reigns[t].leader) == |s.reigns[t].log|)
  }

  /** What a node stored of a leader it keeps, unless it is blocked. */
  ghost predicate Keeps(cfg: Config, s: Cluster) {
    forall v, t: nat, k: nat ::
      v in s.nodes && Own(s.reigns, t, k) && k <= Acked(s.acked, t, v) ==> Holds(cfg, s, t, k, s.nodes[v].log)
  }

  /** Later leaders hold the entries of earlier leaders, unless they are blocked. */
  ghost predicate Completeness(cfg: Config, s: Cluster) {
    forall t: nat, t1: nat, k: nat ::
      Own(s.reigns, t, k) && t1 in s.reigns && t < t1 ==> Holds(cfg, s, t, k, s.reigns[t1].log)
  }

  // ----- Votes -----

  /** v was a candidate in term t and stepped down for another leader of that term. */
  ghost predicate Revoted(s: Cluster, t: nat, v: Id) {
    && TermId(t, v) in s.firstVote && s.firstVote[TermId(t, v)] == v
    && t in s.reigns && s.reigns[t].leader != v
  }

  ghost predicate VotedFor(s: Cluster, t: nat, v: Id, c: Id) {
    && TermId(t, v) in s.firstVote
    && (s.firstVote[TermId(t, v)] == c || Revoted(s, t, v))
  }

  /** A node's vote, counter and role, as far as logs do not matter. */
  ghost predicate Casts(s: Cluster, v: Id)
    requires v in s.nodes
  {
    var n := s.nodes[v];
    var key := TermId(n.currentTerm, v);
    && (n.votedFor == NO_VOTE ==> key !in s.firstVote || Revoted(s, n.currentTerm, v))
    && (n.votedFor != NO_VOTE ==> VotedFor(s, n.currentTerm, v, n.votedFor))
    && (n.role != Follower ==> n.votedFor == v && n.currentTerm >= 1)
    && (n.role == Candidate ==> !n.won && key in s.ballots && n.votes == 1 + |s.ballots[key].counted|)
    && (n.role == Leader <==> n.currentTerm in s.reigns && s.reigns[n.currentTerm].leader == v)
  }

  ghost predicate VotesInTerm(s: Cluster) {
    forall key :: key in s.firstVote ==> key.id in s.nodes && key.term <= s.nodes[key.id].currentTerm
  }

  ghost predicate CastVotes(s: Cluster) {
    VotesInTerm(s) && forall v :: v in s.nodes ==> Casts(s, v)
  }

  ghost predicate NodeVote(s: Cluster, v: Id)
    requires v in s.nodes
  {
    var n := s.nodes[v];
    && Casts(s, v)
    && (n.role == Candidate ==> s.ballots[TermId(n.currentTerm, v)].log == n.log)
    && (n.role == Leader ==> s.reigns[n.currentTerm].log == n.log)
  }

  ghost predicate NodeVotes(s: Cluster) {
    VotesInTerm(s) && forall v :: v in s.nodes ==> NodeVote(s, v)
  }

  ghost predicate ReignVote(cfg: Config, s: Cluster, t: nat)
    requires t in s.reigns
  {
    var r := s.reigns[t];
    && t >= 1
    && r.leader in r.electors
    && IsQuorum(cfg, r.electors)
    && forall v :: v in r.electors ==> TermId(t, v) in s.firstVote && s.firstVote[TermId(t, v)] == r.leader
  }

  ghost predicate ReignVotes(cfg: Config, s: Cluster) {
    forall t :: t in s.reigns ==> ReignVote(cfg, s, t)
  }

  /** v granted candidate c its vote in term t, and x holds what v had to pass on. */
  ghost predicate Granted(cfg: Config, s: Cluster, t: nat, v: Id, c: Id, x: Log) {
    VotedFor(s, t, v, c) && VoteSound(cfg, s, t, v, x)
  }

  /** The candidate voted for itself, and those it counted voted for it. */
  ghost predicate BallotCast(s: Cluster, key: TermId)
    requires key in s.ballots
  {
    && key in s.firstVote && s.firstVote[key] == key.id
    && forall v :: v in s.ballots[key].counted ==>
         && v in s.nodes && v != key.id
         && Call(key.term, key.id, v) in s.returned
         && VotedFor(s, key.term, v, key.id)
  }

  ghost predicate BallotCasts(s: Cluster) {
    forall key :: key in s.ballots ==> BallotCast(s, key)
  }

  ghost predicate BallotOk(cfg: Config, s: Cluster, key: TermId)
    requires key in s.ballots
  {
    var b := s.ballots[key];
    && BallotCast(s, key)
    && Coherent(s.reigns, b.log)
    && VoteSound(cfg, s, key.term, key.id, b.log)
    && forall v :: v in b.counted ==> Granted(cfg, s, key.term, v, key.id, b.log)
  }

  ghost predicate Ballots(cfg: Config, s: Cluster) {
    forall key :: key in s.ballots ==> BallotOk(cfg, s, key)
  }

  ghost predicate RequestCast(s: Cluster, req: VoteReq) {
    && req.to in s.nodes && req.to != req.candidate && req.candidate in s.nodes
    && req.candidate != NO_VOTE
    && TermId(req.term, req.candidate) in s.ballots
  }

  ghost predicate VoteReqOk(s: Cluster, req: VoteReq) {
    && RequestCast(s, req)
    && var log := s.ballots[TermId(req.term, req.candidate)].log;
       req.lastLogIndex == |log| - 1 && req.lastLogTerm == LastTerm(log)
  }

  ghost predicate ReplyCast(s: Cluster, r: VoteReply) {
    && r.req in s.voteReqs
    && (r.granted ==> r.term >= r.req.term)
    && (r.granted && r.term == r.req.term ==> VotedFor(s, r.req.term, r.req.to, r.req.candidate))
  }

  ghost predicate VoteReplyOk(cfg: Config, s: Cluster, r: VoteReply) {
    && ReplyCast(s, r)
    && (r.granted && r.term == r.req.term && TermId(r.req.term, r.req.candidate) in s.ballots ==>
          Granted(cfg, s, r.req.term, r.req.to, r.req.candidate, s.ballots[TermId(r.req.term, r.req.candidate)].log))
  }

  /** The handler that gave the mutex up had already moved its node to the request's term. */
  ghost predicate ParkedOk(s: Cluster, req: VoteReq) {
    req.to in s.nodes && s.nodes[req.to].currentTerm >= req.term
  }

  ghost predicate VoteMessages(cfg: Config, s: Cluster) {
    && (forall req :: req in s.voteReqs ==> VoteReqOk(s, req))
    && (forall req :: req in s.parked ==> req in s.voteReqs && ParkedOk(s, req))
    && (forall r :: r in s.voteReplies ==> VoteReplyOk(cfg, s, r))
  }

  // ----- Replication -----

  /** x is no prefix of y, and they part at index p or before. */
  ghost predicate PartsBy(x: Log, y: Log, p: nat) {
    !(x[..Min(p + 1, |x|)] <= y)
  }

  /** Sending from index p on is safe: the entries of q's log before p that the leader of
      term t does not share, if any, are preceded by one the leader replaces. */
  ghost predicate NextOk(s: Cluster, t: nat, q: Id, p: nat)
    requires t in s.reigns && q in s.nodes
  {
    var n := s.nodes[q];
    && (n.currentTerm < t ==> s.reigns[t].start <= p)
    && (n.currentTerm == t ==> n.log <= s.reigns[t].log || PartsBy(n.log, s.reigns[t].log, p))
  }

  /** q has reached term t, and while it is in that term its log is a prefix of the leader's. */
  ghost predicate Follows(s: Cluster, t: nat, q: Id)
    requires t in s.reigns && q in s.nodes
  {
    && s.nodes[q].currentTerm >= t
    && (s.nodes[q].currentTerm == t ==> s.nodes[q].log <= s.reigns[t].log)
  }

  ghost predicate Leads(cfg: Config, s: Cluster, v: Id)
    requires v in s.nodes
  {
    var n := s.nodes[v];
    n.role == Leader && n.currentTerm in s.reigns ==>
      && n.nextIndex.Keys == cfg.members - {v} == n.matchIndex.Keys
      && (forall q :: q in n.nextIndex ==>
            && q in s.nodes
            && n.nextIndex[q] <= |n.log| && NextOk(s, n.currentTerm, q, n.nextIndex[q]))
      && (forall q :: q in n.matchIndex ==> n.matchIndex[q] < Acked(s.acked, n.currentTerm, q))
  }

  ghost predicate Leaders(cfg: Config, s: Cluster) {
    && s.nodes.Keys == cfg.members
    && (forall v :: v in s.nodes ==>
          s.nodes[v].matchIndex.Keys <= cfg.members - {v} && s.nodes[v].nextIndex.Keys <= cfg.members - {v})
    && (forall v :: v in s.nodes ==> Leads(cfg, s, v))
  }

  /** The request is from the leader of its term to another node. */
  ghost predicate FromLeader(s: Cluster, m: AppendReq) {
    && m.leader in s.nodes && m.to in s.nodes && m.to != m.leader
    && m.term in s.reigns && s.reigns[m.term].leader == m.leader
  }

  ghost predicate AppendOk(s: Cluster, m: AppendReq) {
    && FromLeader(s, m)
    && var ll := s.reigns[m.term].log;
       && m.End() <= |ll|
       && m.entries == ll[m.First()..m.End()]
       && (m.prevLogIndex >= 0 ==> m.prevLogTerm == ll[m.prevLogIndex].term)
       && |m.entries| <= 5
       && NextOk(s, m.term, m.to, m.First())
  }

  /** A refusal names an index before the request's, or a later term. */
  ghost predicate RefusalForm(r: AppendReply) {
    !r.success ==> (r.conflict.Some? && r.conflict.value < r.req.First()) || (r.conflict.None? && r.term > r.req.term)
  }

  ghost predicate AppendReplyOk(s: Cluster, r: AppendReply) {
    && r.req in s.appends
    && r.req.term in s.reigns && r.req.to in s.nodes
    && var t := r.req.term;
       var q := s.nodes[r.req.to];
       && (r.success ==> q.currentTerm >= t && Acked(s.acked, t, r.req.to) >= r.req.End())
       && (r.success && r.req.entries != [] ==> Follows(s, t, r.req.to))
       && (!r.success && r.conflict.Some? ==>
             && r.conflict.value < r.req.First()
             && q.currentTerm >= t && NextOk(s, t, r.req.to, r.conflict.value))
       && (!r.success && r.conflict.None? ==> r.term > t)
  }

  ghost predicate Messages(s: Cluster) {
    && (forall m :: m in s.appends ==> AppendOk(s, m))
    && (forall r :: r in s.appendReplies ==> AppendReplyOk(s, r))
  }

  /** A node whose handler waits for the mutex has reached the request's term, as a follower. */
  ghost predicate WaitOk(s: Cluster, p: Paused) {
    && p.req in s.appends && p.req.to in s.nodes && p.heard < p.req.term
    && p.req.term <= s.nodes[p.req.to].currentTerm
    && (s.nodes[p.req.to].currentTerm == p.req.term ==> s.nodes[p.req.to].role == Follower)
  }

  ghost predicate Waiting(s: Cluster) {
    forall p :: p in s.parkedAppends ==> WaitOk(s, p)
  }

  // ----- Everything but the commit indices -----

  ghost predicate LogPart(cfg: Config, s: Cluster) {
    ReignLogs(s) && NodeLogs(s) && Acks(s) && Keeps(cfg, s) && Completeness(cfg, s)
  }

  ghost predicate VotePart(cfg: Config, s: Cluster) {
    NodeVotes(s) && ReignVotes(cfg, s) && Ballots(cfg, s) && VoteMessages(cfg, s)
  }

  ghost predicate Base(cfg: Config, s: Cluster) {
    && ValidConfig(cfg)
    && Leaders(cfg, s)
    && LogPart(cfg, s)
    && VotePart(cfg, s)
    && Messages(s)
  }

  /** The part of Base that is about votes and leaders, not logs. */
  ghost predicate Voting(cfg: Config, s: Cluster) {
    && ValidConfig(cfg) && s.nodes.Keys == cfg.members
    && CastVotes(s) && ReignVotes(cfg, s) && BallotCasts(s)
    && (forall req :: req in s.voteReqs ==> RequestCast(s, req))
    && (forall req :: req in s.parked ==> req in s.voteReqs && ParkedOk(s, req))
    && (forall r :: r in s.voteReplies ==> ReplyCast(s, r))
    && (forall m :: m in s.appends ==> FromLeader(s, m))
    && (forall r :: r in s.appendReplies ==> RefusalForm(r))
  }

  // ----- Commit -----

  ghost predicate AckedBy(s: Cluster, t: nat, k: nat, b: set<Id>) {
    forall v :: v in b ==> Acked(s.acked, t, v) >= k
  }

  /** Entry k-1 of term t, of that term, is stored on so many nodes that it is never lost. */
  ghost predicate Committed(cfg: Config, s: Cluster, t: nat, k: nat) {
    Own(s.reigns, t, k) && exists b :: MeetsQuorums(cfg, b) && AckedBy(s, t, k, b)
  }

  /** x is part of what the leader of some term up to t committed. */
  ghost predicate SafePrefix(cfg: Config, s: Cluster, t: nat, x: Log) {
    x == [] || exists t0: nat, k: nat :: t0 <= t && Committed(cfg, s, t0, k) && x <= s.reigns[t0].log[..k]
  }

  ghost predicate NodeCommit(cfg: Config, s: Cluster, v: Id)
    requires v in s.nodes
  {
    var n := s.nodes[v];
    && -1 <= n.lastApplied <= n.commitIndex < |n.log|
    && n.applied == n.log[..n.lastApplied + 1]
    && SafePrefix(cfg, s, n.currentTerm, n.log[..n.commitIndex + 1])
  }

  ghost predicate AppendCommit(cfg: Config, s: Cluster, m: AppendReq)
    requires m.term in s.reigns
  {
    && -1 <= m.leaderCommit < |s.reigns[m.term].log|
    && SafePrefix(cfg, s, m.term, s.reigns[m.term].log[..m.leaderCommit + 1])
    && (m.entries == [] ==> m.leaderCommit < m.First())
  }

  ghost predicate Committing(cfg: Config, s: Cluster) {
    && (forall v :: v in s.nodes ==> NodeCommit(cfg, s, v))
    && (forall m :: m in s.appends ==> m.term in s.reigns && AppendCommit(cfg, s, m))
  }

  /** The clusters whose commit scan is safe: the scan checks the role, or any follower
      together with its leader meets every quorum. */
  predicate ScanIsSafe(cfg: Config) {
    cfg.leaderOnlyScan || |cfg.members| <= 4
  }

  /** The clusters in which a handler of onAppendEntries that gave the mutex up can do no
      harm: it looks at the term again, or there are too few members for it to wait. */
  predicate ResumeIsSafe(cfg: Config) {
    cfg.rechecksTerm || |cfg.members| <= 2
  }
}
