/**
 Phases of a run in terms of idle followers: nodes that follow, all with the same term and
 log, have committed nothing, and have no unfinished handler.
 */
module Phases {
  import opened Commands
  import opened RaftTypes
  import opened LogMerge
  import opened Handlers
  import opened Clusters
  import opened VoteSteps
  import opened Scenario

  lemma WithoutOne(s: set<Id>, x: Id)
    requires x in s
    ensures |s - {x}| == |s| - 1
  {
    assert s == (s - {x}) + {x};
  }

  lemma AtLeastTwo(cfg: Config, c: Id)
    requires c in cfg.members && |cfg.members| >= 2
    ensures 1 < Majority(Self(cfg, c)) && cfg.members - {c} != {}
  {
    SelfMajority(cfg, c);
    WithoutOne(cfg.members, c);
    assert Self(cfg, c).peers == cfg.members - {c};
  }

  /** A node's term, log and commit index; it has applied all it has committed. */
  ghost predicate Has(n: Node, t: nat, log: Log, commit: int) {
    && n.currentTerm == t && n.log == log
    && -1 <= n.commitIndex == n.lastApplied == commit < |log| && n.applied == log[..commit + 1]
  }

  ghost predicate Idle(n: Node, t: nat, log: Log) {
    n.role == Follower && Has(n, t, log, -1)
  }

  ghost predicate AllIdle(s: Cluster, vs: set<Id>, t: nat, log: Log) {
    Free(s, vs) && forall v :: v in vs ==> v in s.nodes && Idle(s.nodes[v], t, log)
  }

  /** A follower that has committed nothing stores entries that extend or replace its log. */
  lemma IdleStores(cfg: Config, n: Node, t: nat, log: Log, m: AppendReq, log': Log)
    requires Idle(n, t, log) && t <= m.term && m.leaderCommit == -1 && PrevMatches(log, m)
    requires Merge(log, m.First(), m.entries) == log'
    ensures Idle(Handled(cfg, n, m).node, m.term, log')
    ensures Handled(cfg, n, m).reply == AppendReply(m, m.term, true, None)
  {
  }

  lemma IdleVotes(n: Node, t: nat, log: Log, t': nat, c: Id)
    requires Idle(n, t, log)
    ensures Idle(Voted(n, t', c), t', log)
  {
  }

  // ----- Phases in terms of idle followers -----

  ghost predicate Fresh(cfg: Config, s: Cluster, c: Id, n: nat)
  {
    c in s.nodes && forall q :: q in cfg.members - {c} ==>
      && q in s.nodes[c].nextIndex && s.nodes[c].nextIndex[q] == n
      && q in s.nodes[c].matchIndex && s.nodes[c].matchIndex[q] == -1
  }

  ghost predicate InCharge(s: Cluster, c: Id, t: nat, log: Log, commit: int) {
    c in s.nodes && s.nodes[c].role == Leader && Has(s.nodes[c], t, log, commit)
  }

  ghost predicate Alive(cfg: Config, s: Cluster, t: nat) {
    s.nodes.Keys == cfg.members && ReturnedBefore(s, t) && TimelyReachable(cfg, s)
  }

  /** No handler waits anywhere. */
  ghost predicate Calm(s: Cluster) {
    s.parked == {} && s.parkedAppends == {}
  }

  lemma CalmFree(s: Cluster, v: Id)
    requires Calm(s)
    ensures !Busy(s, v)
  {
  }

  lemma WillVoteIdle(n: Node, t: nat, log: Log, c: Node)
    requires Idle(n, t, log) && t < c.currentTerm && UpToDate(|c.log| - 1, LastTerm(c.log), log)
    ensures WillVote(n, c)
  {
  }

  /** What an elected candidate's record is. */
  lemma Enthroned(cfg: Config, s: Cluster, s': Cluster, c: Id, t: nat, own: Log, commit: int)
    requires c in s.nodes && c in s'.nodes && t > 0 && Has(s.nodes[c], t - 1, own, commit)
    requires Crowned(cfg, c, Campaigner(s.nodes[c], c), s'.nodes[c])
    ensures InCharge(s', c, t, own, commit) && Fresh(cfg, s', c, |own|)
  {
  }

  lemma BackedIdle(s: Cluster, s': Cluster, n: Node, c: Id, vs: set<Id>, t0: nat, log: Log)
    requires Backed(s, s', n, c, vs) && AllIdle(s, vs, t0, log) && SameExcept(s, s', vs + {c})
    ensures AllIdle(s', vs, n.currentTerm, log)
  {
    StillFree(s, s', vs + {c}, vs);
    hide Free, SameExcept;
    forall v | v in vs ensures Idle(s'.nodes[v], n.currentTerm, log) {
      IdleVotes(s.nodes[v], t0, log, n.currentTerm, c);
    }
  }

  /** c is elected in term t by idle followers. */
  lemma ElectIdle(cfg: Config, s: Cluster, c: Id, vs: set<Id>, t0: nat, log: Log, t: nat, own: Log, commit: int)
    returns (s': Cluster)
    requires Alive(cfg, s, t) && c in cfg.members && vs <= cfg.members - {c} && |cfg.members| >= 2
    requires s.nodes[c].role != Leader && t > 0 && Has(s.nodes[c], t - 1, own, commit)
    requires AllIdle(s, vs, t0, log) && t0 < t && Majority(Self(cfg, c)) <= 1 + |vs|
    requires UpToDate(|own| - 1, LastTerm(own), log)
    ensures Alive(cfg, s', t + 1) && SameExcept(s, s', vs + {c}) && KeepsMessages(s, s')
    ensures InCharge(s', c, t, own, commit) && Fresh(cfg, s', c, |own|) && AllIdle(s', vs, t, log)
    ensures c in s'.nodes && (Calm(s) ==> Calm(s'))
    ensures forall q :: q in cfg.members - {c} ==>
              && MakeAppend(Self(cfg, c), s'.nodes[c], q) in s'.appends
              && VoteReq(t, c, q, |own| - 1, LastTerm(own)) in s'.voteReqs
  {
    AtLeastTwo(cfg, c);
    hide TimelyReachable, MakeAppend, UpToDate, WillVote, LastTerm, Crowned, Backed, InCharge, Fresh, Idle, Majority, Free;
    forall v | v in vs ensures WillVote(s.nodes[v], Campaigner(s.nodes[c], c)) {
      WillVoteIdle(s.nodes[v], t0, log, Campaigner(s.nodes[c], c));
    }
    s' := Elect(cfg, s, c, vs);
    TimelyOn(cfg, s, s');
    BackedIdle(s, s', Campaigner(s.nodes[c], c), c, vs, t0, log);
    Enthroned(cfg, s, s', c, t, own, commit);
    assert forall q :: q in cfg.members - {c} ==> Ask(Campaigner(s.nodes[c], c), c, q) in s'.voteReqs;
  }

  /** The leader appends a command; the message for a peer whose nextIndex is `next`. */
  lemma WriteIdle(cfg: Config, s: Cluster, l: Id, t: nat, log: Log, commit: int, command: Command) returns (s': Cluster)
    requires Alive(cfg, s, t + 1) && InCharge(s, l, t, log, commit) && |cfg.members| >= 2
    ensures Alive(cfg, s', t + 1) && SameExcept(s, s', {l}) && KeepsMessages(s, s')
    ensures InCharge(s', l, t, log + [Entry(t, command)], commit)
    ensures l in s.nodes && l in s'.nodes && (Calm(s) ==> Calm(s'))
    ensures s'.nodes[l].nextIndex == s.nodes[l].nextIndex && s'.nodes[l].matchIndex == s.nodes[l].matchIndex
    ensures forall q :: q in cfg.members - {l} ==> MakeAppend(Self(cfg, l), s'.nodes[l], q) in s'.appends
  {
    hide TimelyReachable, Next, MakeAppend;
    AtLeastTwo(cfg, l);
    s' := Write(cfg, s, l, command);
    TimelyOn(cfg, s, s');
    assert (log + [Entry(t, command)])[..commit + 1] == log[..commit + 1];
  }

  /** Idle followers store what the leader sends. */
  lemma StoreIdle(cfg: Config, s: Cluster, m: AppendReq, vs: set<Id>, t0: nat, log: Log, log': Log) returns (s': Cluster)
    requires Alive(cfg, s, m.term + 1) && vs <= cfg.members && AllIdle(s, vs, t0, log) && t0 <= m.term
    requires forall v :: v in vs ==> To(m, v) in s.appends
    requires m.leaderCommit == -1 && PrevMatches(log, m) && Merge(log, m.First(), m.entries) == log'
    ensures Alive(cfg, s', m.term + 1) && SameExcept(s, s', vs) && KeepsMessages(s, s')
    ensures AllIdle(s', vs, m.term, log') && (Calm(s) ==> Calm(s'))
    ensures forall v :: v in vs ==> AppendReply(To(m, v), m.term, true, None) in s'.appendReplies
  {
    hide TimelyReachable, Next, Handled;
    s' := DeliverAll(cfg, s, m, vs);
    TimelyOn(cfg, s, s');
    StillFree(s, s', vs, vs);
    forall v | v in vs
      ensures Idle(s'.nodes[v], m.term, log') && AppendReply(To(m, v), m.term, true, None) in s'.appendReplies
    {
      IdleStores(cfg, s.nodes[v], t0, log, To(m, v), log');
    }
  }

  /** The leader hears that a majority stored its log, ending in an entry of its term. */
  lemma CommitIdle(cfg: Config, s: Cluster, m: AppendReq, vs: set<Id>, log: Log, commit: int) returns (s': Cluster)
    requires Alive(cfg, s, m.term + 1) && InCharge(s, m.leader, m.term, log, commit)
    requires m.entries != [] && m.End() == |log| && m.leader in cfg.members && vs != {}
    requires LastTerm(log) == m.term && forall i :: 0 <= i < |log| - 1 ==> log[i].term != m.term
    requires Majority(Self(cfg, m.leader)) <= 1 + |vs|
    requires forall v :: v in vs ==> AppendReply(To(m, v), m.term, true, None) in s.appendReplies
    ensures Alive(cfg, s', m.term + 1) && SameExcept(s, s', {m.leader}) && KeepsMessages(s, s')
    ensures InCharge(s', m.leader, m.term, log, |log| - 1) && (Calm(s) ==> Calm(s'))
    ensures m.leader in s.nodes && m.leader in s'.nodes
    ensures forall q :: q in vs ==> NextIndex(s'.nodes[m.leader], q) == |log|
    ensures forall q :: q in s.nodes[m.leader].nextIndex && q !in vs ==>
              NextIndex(s'.nodes[m.leader], q) == NextIndex(s.nodes[m.leader], q)
  {
    hide TimelyReachable, Next, Committable;
    s' := GatherAll(cfg, s, m, vs);
    TimelyOn(cfg, s, s');
    GatherCommits(cfg, s.nodes[m.leader], s'.nodes[m.leader], m.leader, vs);
  }

  lemma IdleKept(s: Cluster, s': Cluster, ws: set<Id>, vs: set<Id>, t: nat, log: Log)
    requires AllIdle(s, vs, t, log) && SameExcept(s, s', ws) && vs !! ws
    ensures AllIdle(s', vs, t, log)
  {
  }

  lemma InChargeKept(s: Cluster, s': Cluster, ws: set<Id>, c: Id, t: nat, log: Log, commit: int)
    requires InCharge(s, c, t, log, commit) && SameExcept(s, s', ws) && c !in ws
    ensures InCharge(s', c, t, log, commit) && c in s.nodes && s'.nodes[c] == s.nodes[c]
  {
  }

  /** A member that leads no more, or not yet. */
  ghost predicate Waits(s: Cluster, c: Id, t: nat, log: Log, commit: int) {
    c in s.nodes && !Busy(s, c) && s.nodes[c].role == Follower && Has(s.nodes[c], t, log, commit)
  }

  lemma WaitsKept(s: Cluster, s': Cluster, ws: set<Id>, c: Id, t: nat, log: Log, commit: int)
    requires Waits(s, c, t, log, commit) && SameExcept(s, s', ws) && c !in ws
    ensures Waits(s', c, t, log, commit)
  {
  }

  lemma WaitsHas(s: Cluster, c: Id, t: nat, log: Log, commit: int)
    requires Waits(s, c, t, log, commit)
    ensures c in s.nodes && s.nodes[c].role != Leader && Has(s.nodes[c], t, log, commit)
  {
  }

  lemma WaitsIdle(s: Cluster, c: Id, t: nat, log: Log)
    ensures Waits(s, c, t, log, -1) <==> AllIdle(s, {c}, t, log)
  {
  }

  lemma AliveHas(cfg: Config, s: Cluster, t: nat, c: Id)
    requires Alive(cfg, s, t) && c in cfg.members
    ensures c in s.nodes
  {
  }

  /** The old leader learns of the new term from the new leader's RequestVote. */
  lemma DeposeIdle(cfg: Config, s: Cluster, l: Id, t0: nat, log: Log, commit: int, req: VoteReq, t: nat) returns (s': Cluster)
    requires Alive(cfg, s, t) && InCharge(s, l, t0, log, commit)
    requires req in s.voteReqs && req.to == l && req.term > t0 && !Busy(s, l)
    ensures Alive(cfg, s', t) && SameExcept(s, s', {l}) && KeepsMessages(s, s') && (Calm(s) ==> Calm(s'))
    ensures Waits(s', l, req.term, log, commit)
    ensures l in s.nodes && l in s'.nodes && s'.nodes[l].matchIndex == s.nodes[l].matchIndex
  {
    hide TimelyReachable, Next;
    s' := Depose(cfg, s, req);
    TimelyOn(cfg, s, s');
    StillFree(s, s', {l}, {l});
  }

  lemma KeptMessages(s: Cluster, s': Cluster)
    requires KeepsMessages(s, s')
    ensures s.voteReqs <= s'.voteReqs && s.appends <= s'.appends && s.appendReplies <= s'.appendReplies
  {
  }

  lemma BeatIdle(cfg: Config, s: Cluster, l: Id, t: nat, log: Log, commit: int) returns (s': Cluster)
    requires Alive(cfg, s, t + 1) && InCharge(s, l, t, log, commit) && l in cfg.members && |cfg.members| >= 2
    ensures Alive(cfg, s', t + 1) && SameExcept(s, s', {}) && KeepsMessages(s, s')
    ensures l in s'.nodes && l in s.nodes && s'.nodes[l] == s.nodes[l] && (Calm(s) ==> Calm(s'))
    ensures forall q :: q in cfg.members - {l} ==> MakeAppend(Self(cfg, l), s'.nodes[l], q) in s'.appends
  {
    hide TimelyReachable, Next, MakeAppend;
    AtLeastTwo(cfg, l);
    s' := Beat(cfg, s, l);
    TimelyOn(cfg, s, s');
  }
}
