/**
 Every step keeps the commit indices safe, in the clusters whose scan is safe.
 */
module CommitSteps {
  import opened Commands
  import opened RaftTypes
  import opened LogMerge
  import opened Handlers
  import opened Clusters
  import opened Invariants
  import opened Growth
  import opened CrownMerge
  import opened VoteSteps
  import opened BaseSteps
  import opened Elections
  import opened Replications
  import opened Steps

  // ----- What committed means -----

  /** A committed entry is never blocked. */
  lemma CommittedNotBlocked(cfg: Config, s: Cluster, t: nat, k: nat)
    requires Committed(cfg, s, t, k)
    ensures !Blocked(cfg, s, t, k)
  {
    var b :| MeetsQuorums(cfg, b) && AckedBy(s, t, k, b);
    forall q | IsQuorum(cfg, q) ensures !Missed(s, t, k, q) {
      var v := QuorumsMeet(cfg, q, b);
      assert Acked(s.acked, t, v) >= k;
    }
  }

  /** Leader Completeness: what a term committed, every later leader holds. */
  lemma CommittedInLaterLeader(cfg: Config, s: Cluster, t: nat, k: nat, t1: nat)
    requires Completeness(cfg, s) && Committed(cfg, s, t, k) && t <= t1 && t1 in s.reigns
    ensures s.reigns[t].log[..k] <= s.reigns[t1].log
  {
    CommittedNotBlocked(cfg, s, t, k);
    if t < t1 {
      assert Holds(cfg, s, t, k, s.reigns[t1].log);
    }
  }

  lemma SafeInLeader(cfg: Config, s: Cluster, t: nat, x: Log)
    requires Completeness(cfg, s) && SafePrefix(cfg, s, t, x) && t in s.reigns
    ensures x <= s.reigns[t].log
  {
    if x != [] {
      var t0: nat, k: nat :| t0 <= t && Committed(cfg, s, t0, k) && x <= s.reigns[t0].log[..k];
      CommittedInLaterLeader(cfg, s, t0, k, t);
      PrefixTransitive(x, s.reigns[t0].log[..k], s.reigns[t].log);
    }
  }

  // ----- The scan -----

  function Replicated(n: Node, i: int): set<Id> {
    set q | q in n.matchIndex && n.matchIndex[q] >= i
  }

  lemma ReplicationIsSize(cfg: Config, n: Node, v: Id, i: int)
    requires n.matchIndex.Keys == cfg.members - {v} && v in cfg.members
    ensures Replicated(n, i) + {v} <= cfg.members && |Replicated(n, i) + {v}| == Replication(n.matchIndex, i)
  {
    assert v !in Replicated(n, i);
  }

  /** Whoever the leader's matchIndex counts, and the leader itself, has stored the entry. */
  lemma ReplicatedAcked(cfg: Config, s: Cluster, v: Id, i: nat)
    requires v in s.nodes && Casts(s, v) && Leads(cfg, s, v) && Acks(s) && s.nodes[v].role == Leader
    requires s.reigns[s.nodes[v].currentTerm].log == s.nodes[v].log && i < |s.nodes[v].log|
    ensures AckedBy(s, s.nodes[v].currentTerm, i + 1, Replicated(s.nodes[v], i) + {v})
  {
    var t := s.nodes[v].currentTerm;
    assert Acked(s.acked, t, s.reigns[t].leader) == |s.nodes[v].log|;
  }

  /** A leader's scan commits what a majority has stored. */
  lemma LeaderScanCommits(cfg: Config, s: Cluster, v: Id, i: nat)
    requires s.nodes.Keys == cfg.members && v in s.nodes && NodeVote(s, v) && Leads(cfg, s, v) && Acks(s)
    requires s.nodes[v].role == Leader && Committable(Self(cfg, v), s.nodes[v], i)
    ensures Committed(cfg, s, s.nodes[v].currentTerm, i + 1)
  {
    hide Acks, Acked, AckedBy, Replicated, Replication, NextOk;
    var n := s.nodes[v];
    var b := Replicated(n, i) + {v};
    SelfMajority(cfg, v);
    ReplicationIsSize(cfg, n, v, i);
    ReplicatedAcked(cfg, s, v, i);
    assert MeetsQuorums(cfg, b);
  }

  /** An entry of its own term in a node's log is the leader's, and acknowledged by both. */
  lemma FollowerAcked(s: Cluster, v: Id, i: nat)
    requires v in s.nodes && NodeLog(s, v) && Acks(s)
    requires i < |s.nodes[v].log| && s.nodes[v].log[i].term == s.nodes[v].currentTerm
    ensures Own(s.reigns, s.nodes[v].currentTerm, i + 1)
    ensures AckedBy(s, s.nodes[v].currentTerm, i + 1, {v, s.reigns[s.nodes[v].currentTerm].leader})
  {
    var t := s.nodes[v].currentTerm;
    assert s.nodes[v].log[..i + 1] <= s.reigns[t].log;
    assert s.reigns[t].log[i] == s.nodes[v].log[..i + 1][i];
    assert Acked(s.acked, t, s.reigns[t].leader) == |s.reigns[t].log|;
  }

  /** In a cluster of up to four a follower and its leader meet every quorum, so whatever
      a follower's scan finds with its left-over matchIndex is committed all the same. */
  lemma FollowerScanCommits(cfg: Config, s: Cluster, v: Id, i: nat)
    requires s.nodes.Keys == cfg.members && v in s.nodes && NodeVote(s, v) && NodeLog(s, v) && Acks(s)
    requires ReignVotes(cfg, s) && |cfg.members| <= 4
    requires s.nodes[v].role != Leader && i < |s.nodes[v].log| && s.nodes[v].log[i].term == s.nodes[v].currentTerm
    ensures Committed(cfg, s, s.nodes[v].currentTerm, i + 1)
  {
    var t := s.nodes[v].currentTerm;
    FollowerAcked(s, v, i);
    hide NodeLog, Acks, Acked, AckedBy, Own;
    OwnHasReign(s.reigns, t, i + 1);
    assert ReignVote(cfg, s, t);
    var b := {v, s.reigns[t].leader};
    assert |b| == 2 && MeetsQuorums(cfg, b);
  }

  lemma OwnHasReign(reigns: map<nat, Reign>, t: nat, k: nat)
    requires Own(reigns, t, k)
    ensures t in reigns
  {
  }

  lemma ScanCommits(cfg: Config, s: Cluster, v: Id, i: nat)
    requires ScanIsSafe(cfg) && Leaders(cfg, s) && Acks(s) && NodeVotes(s) && ReignVotes(cfg, s)
    requires v in s.nodes && NodeLog(s, v) && Committable(Self(cfg, v), s.nodes[v], i)
    requires cfg.leaderOnlyScan ==> s.nodes[v].role == Leader
    ensures Committed(cfg, s, s.nodes[v].currentTerm, i + 1)
  {
    assert NodeVote(s, v) && Leads(cfg, s, v);
    if s.nodes[v].role == Leader {
      LeaderScanCommits(cfg, s, v, i);
    } else {
      FollowerScanCommits(cfg, s, v, i);
    }
  }

  lemma ScanFinds(cfg: Config, s: Cluster, v: Id)
    requires v in s.nodes && InRange(s.nodes[v]) && s.nodes[v].commitIndex < |s.nodes[v].log|
    ensures var c := ScanCommit(Self(cfg, v), s.nodes[v]).commitIndex;
            && s.nodes[v].commitIndex <= c < |s.nodes[v].log|
            && (c > s.nodes[v].commitIndex ==>
                  Committable(Self(cfg, v), s.nodes[v], c) && (cfg.leaderOnlyScan ==> s.nodes[v].role == Leader))
  {
  }

  lemma OwnPrefix(s: Cluster, v: Id, c: nat)
    requires v in s.nodes && NodeLog(s, v) && c < |s.nodes[v].log| && s.nodes[v].log[c].term == s.nodes[v].currentTerm
    ensures s.nodes[v].currentTerm in s.reigns && c < |s.reigns[s.nodes[v].currentTerm].log|
    ensures s.nodes[v].log[..c + 1] <= s.reigns[s.nodes[v].currentTerm].log[..c + 1]
  {
  }

  lemma OwnPrefixIsSafe(cfg: Config, s: Cluster, v: Id, c: nat)
    requires v in s.nodes && NodeLog(s, v) && c < |s.nodes[v].log| && s.nodes[v].log[c].term == s.nodes[v].currentTerm
    requires Committed(cfg, s, s.nodes[v].currentTerm, c + 1)
    ensures SafePrefix(cfg, s, s.nodes[v].currentTerm, s.nodes[v].log[..c + 1])
  {
    OwnPrefix(s, v, c);
  }

  lemma ScannedIsSafe(cfg: Config, s: Cluster, v: Id, c: int)
    requires ScanIsSafe(cfg) && Leaders(cfg, s) && Acks(s) && NodeVotes(s) && ReignVotes(cfg, s)
    requires v in s.nodes && NodeLog(s, v) && 0 <= c && Committable(Self(cfg, v), s.nodes[v], c)
    requires cfg.leaderOnlyScan ==> s.nodes[v].role == Leader
    ensures c < |s.nodes[v].log| && SafePrefix(cfg, s, s.nodes[v].currentTerm, s.nodes[v].log[..c + 1])
  {
    ScanCommits(cfg, s, v, c);
    OwnPrefixIsSafe(cfg, s, v, c);
  }

  /** The node has committed up to c and applied all of it. */
  function Advanced(n: Node, c: int): Node
    requires -1 <= c < |n.log|
  {
    n.(commitIndex := c, lastApplied := c, applied := n.log[..c + 1])
  }

  lemma ApplyAdvances(me: Member, n: Node)
    requires -1 <= n.lastApplied <= n.commitIndex < |n.log| && n.applied == n.log[..n.lastApplied + 1]
    ensures var c := ScanCommit(me, n).commitIndex;
            n.commitIndex <= c < |n.log| && ApplyStateMachine(me, n) == Advanced(n, c)
  {
    hide ScanFrom, Committable;
    var c := ScanCommit(me, n).commitIndex;
    assert n.log[..n.lastApplied + 1] + n.log[n.lastApplied + 1..c + 1] == n.log[..c + 1];
  }

  lemma AdvancedCommit(cfg: Config, s: Cluster, v: Id, c: int)
    requires v in s.nodes && -1 <= c < |s.nodes[v].log|
    requires SafePrefix(cfg, s, s.nodes[v].currentTerm, s.nodes[v].log[..c + 1])
    ensures NodeCommit(cfg, SetNode(s, v, Advanced(s.nodes[v], c)), v)
  {
    SafePrefixElsewhere(cfg, s, SetNode(s, v, Advanced(s.nodes[v], c)), s.nodes[v].currentTerm, s.nodes[v].log[..c + 1]);
    hide SafePrefix;
  }

  /** SafePrefix looks at reigns and acknowledgements only. */
  lemma SafePrefixElsewhere(cfg: Config, s: Cluster, s': Cluster, t: nat, x: Log)
    requires s'.reigns == s.reigns && s'.acked == s.acked && SafePrefix(cfg, s, t, x)
    ensures SafePrefix(cfg, s', t, x)
  {
    if x != [] {
      var t0: nat, k: nat :| t0 <= t && Committed(cfg, s, t0, k) && x <= s.reigns[t0].log[..k];
      var b :| MeetsQuorums(cfg, b) && AckedBy(s, t0, k, b);
      assert AckedBy(s', t0, k, b);
      assert Committed(cfg, s', t0, k);
    }
  }

  // ----- Steps -----

  /** Nothing about v's commit changed, except that its log may be longer. */
  lemma NodeCommitGrows(cfg: Config, s: Cluster, s': Cluster, v: Id)
    requires Grows(s, s') && v in s.nodes && NodeCommit(cfg, s, v)
    requires s'.nodes[v].commitIndex == s.nodes[v].commitIndex && s'.nodes[v].lastApplied == s.nodes[v].lastApplied
    requires s'.nodes[v].applied == s.nodes[v].applied
    requires s.nodes[v].log[..s.nodes[v].commitIndex + 1] <= s'.nodes[v].log
    ensures NodeCommit(cfg, s', v)
  {
    var n := s.nodes[v];
    var x := n.log[..n.commitIndex + 1];
    assert s'.nodes[v].log[..n.commitIndex + 1] == x;
    assert s'.nodes[v].log[..n.lastApplied + 1] == x[..n.lastApplied + 1] == n.log[..n.lastApplied + 1];
    SafePrefixGrows(cfg, s, s', n.currentTerm, s'.nodes[v].currentTerm, x);
  }

  lemma AppendCommitGrows(cfg: Config, s: Cluster, s': Cluster, m: AppendReq)
    requires Grows(s, s') && m.term in s.reigns && AppendCommit(cfg, s, m)
    ensures m.term in s'.reigns && AppendCommit(cfg, s', m)
  {
    assert ReignGrows(s, s', m.term);
    var x := s.reigns[m.term].log[..m.leaderCommit + 1];
    SafePrefixGrows(cfg, s, s', m.term, m.term, x);
    assert s'.reigns[m.term].log[..m.leaderCommit + 1] == x;
  }

  lemma CommittingStep(cfg: Config, s: Cluster, s': Cluster, v: Id)
    requires Committing(cfg, s) && Grows(s, s') && v in s.nodes && NodeCommit(cfg, s', v)
    requires forall q :: q in s.nodes && q != v ==> s'.nodes[q] == s.nodes[q]
    requires forall m :: m in s'.appends ==> m in s.appends || (m.term in s'.reigns && AppendCommit(cfg, s', m))
    ensures Committing(cfg, s')
  {
    forall q | q in s'.nodes ensures NodeCommit(cfg, s', q) {
      if q != v {
        assert NodeCommit(cfg, s, q);
        NodeCommitGrows(cfg, s, s', q);
      }
    }
    forall m | m in s'.appends ensures m.term in s'.reigns && AppendCommit(cfg, s', m) {
      if m in s.appends {
        AppendCommitGrows(cfg, s, s', m);
      }
    }
  }

  /** A step that leaves v's commit alone and sends nothing. */
  ghost predicate CommitSame(s: Cluster, s': Cluster, v: Id) {
    && v in s.nodes && v in s'.nodes && s'.appends == s.appends
    && (forall q :: q in s.nodes && q != v ==> q in s'.nodes && s'.nodes[q] == s.nodes[q])
    && s'.nodes[v].commitIndex == s.nodes[v].commitIndex
    && s'.nodes[v].lastApplied == s.nodes[v].lastApplied
    && s'.nodes[v].applied == s.nodes[v].applied
    && s.nodes[v].log <= s'.nodes[v].log
  }

  lemma CommittingKept(cfg: Config, s: Cluster, s': Cluster, v: Id)
    requires Committing(cfg, s) && Grows(s, s') && CommitSame(s, s', v)
    ensures Committing(cfg, s')
  {
    assert NodeCommit(cfg, s, v);
    assert s.nodes[v].log[..s.nodes[v].commitIndex + 1] <= s'.nodes[v].log;
    NodeCommitGrows(cfg, s, s', v);
    CommittingStep(cfg, s, s', v);
  }

  lemma ApplyKeepsCommitting(cfg: Config, s: Cluster, v: Id, n: Node)
    requires Committing(cfg, s) && v in s.nodes && TouchesCommit(s.nodes[v], n) && Grows(s, SetNode(s, v, n))
    requires NodeCommit(cfg, SetNode(s, v, n), v)
    ensures Committing(cfg, SetNode(s, v, n))
  {
    CommittingStep(cfg, s, SetNode(s, v, n), v);
  }

  lemma CommitFacts(cfg: Config, s: Cluster, v: Id)
    requires Committing(cfg, s) && v in s.nodes
    ensures -1 <= s.nodes[v].lastApplied <= s.nodes[v].commitIndex < |s.nodes[v].log|
    ensures s.nodes[v].applied == s.nodes[v].log[..s.nodes[v].lastApplied + 1]
    ensures SafePrefix(cfg, s, s.nodes[v].currentTerm, s.nodes[v].log[..s.nodes[v].commitIndex + 1])
  {
    assert NodeCommit(cfg, s, v);
  }

  lemma BaseScanned(cfg: Config, s: Cluster, v: Id, c: int)
    requires Base(cfg, s) && ScanIsSafe(cfg)
    requires v in s.nodes && 0 <= c && Committable(Self(cfg, v), s.nodes[v], c)
    requires cfg.leaderOnlyScan ==> s.nodes[v].role == Leader
    ensures c < |s.nodes[v].log| && SafePrefix(cfg, s, s.nodes[v].currentTerm, s.nodes[v].log[..c + 1])
  {
    hide SafePrefix, Committable, ScanIsSafe, NodeLog, Keeps, Completeness;
    assert NodeLog(s, v);
    ScannedIsSafe(cfg, s, v, c);
  }

  lemma ApplyIsSafe(cfg: Config, s: Cluster, v: Id)
    requires Base(cfg, s) && Committing(cfg, s) && ScanIsSafe(cfg) && v in s.nodes && InRange(s.nodes[v])
    ensures NodeCommit(cfg, SetNode(s, v, ApplyStateMachine(Self(cfg, v), s.nodes[v])), v)
  {
    hide *;
    var c := ScanCommit(Self(cfg, v), s.nodes[v]).commitIndex;
    CommitFacts(cfg, s, v);
    ApplyAdvances(Self(cfg, v), s.nodes[v]);
    ScanFinds(cfg, s, v);
    if c > s.nodes[v].commitIndex {
      BaseScanned(cfg, s, v, c);
    }
    AdvancedCommit(cfg, s, v, c);
  }

  lemma ApplyCommitting(cfg: Config, s: Cluster, v: Id)
    requires Base(cfg, s) && Committing(cfg, s) && ScanIsSafe(cfg) && v in s.nodes && InRange(s.nodes[v])
    ensures var s' := SetNode(s, v, ApplyStateMachine(Self(cfg, v), s.nodes[v]));
            Base(cfg, s') && Committing(cfg, s')
  {
    hide *;
    ApplyIsSafe(cfg, s, v);
    ApplyTouches(Self(cfg, v), s.nodes[v]);
    TouchBase(cfg, s, v, ApplyStateMachine(Self(cfg, v), s.nodes[v]));
    ApplyKeepsCommitting(cfg, s, v, ApplyStateMachine(Self(cfg, v), s.nodes[v]));
  }

  lemma HeartbeatIs(cfg: Config, s: Cluster, v: Id)
    requires v in s.nodes && InRange(s.nodes[v])
    ensures SetNode(s, v, HeartbeatNode(Self(cfg, v), s.nodes[v])) ==
            if s.nodes[v].role == Leader && Self(cfg, v).peers == {}
            then SetNode(s, v, ApplyStateMachine(Self(cfg, v), s.nodes[v])) else s
  {
    assert s.nodes[v := s.nodes[v]] == s.nodes;
  }

  lemma HeartbeatCommitting(cfg: Config, s: Cluster, v: Id)
    requires Base(cfg, s) && Committing(cfg, s) && ScanIsSafe(cfg) && v in s.nodes && InRange(s.nodes[v])
    ensures var s' := SetNode(s, v, HeartbeatNode(Self(cfg, v), s.nodes[v]));
            Base(cfg, s') && Committing(cfg, s')
  {
    HeartbeatIs(cfg, s, v);
    ApplyCommitting(cfg, s, v);
  }

  lemma MakeAppendCommit(cfg: Config, s: Cluster, v: Id, q: Id)
    requires v in s.nodes && NodeVote(s, v) && s.nodes[v].role == Leader && NodeCommit(cfg, s, v)
    ensures s.nodes[v].currentTerm in s.reigns
    ensures AppendCommit(cfg, s, MakeAppend(Self(cfg, v), s.nodes[v], q))
  {
  }

  lemma SentCommits(cfg: Config, s: Cluster, v: Id)
    requires v in s.nodes && NodeVote(s, v) && NodeCommit(cfg, s, v) && Grows(s, Send(cfg, s, v))
    ensures NodeCommit(cfg, Send(cfg, s, v), v)
    ensures forall m :: m in Broadcast(Self(cfg, v), s.nodes[v]) ==>
              m.term in Send(cfg, s, v).reigns && AppendCommit(cfg, Send(cfg, s, v), m)
  {
    var s' := Send(cfg, s, v);
    NodeCommitGrows(cfg, s, s', v);
    forall m | m in Broadcast(Self(cfg, v), s.nodes[v]) ensures m.term in s'.reigns && AppendCommit(cfg, s', m) {
      MakeAppendCommit(cfg, s, v, m.to);
      AppendCommitGrows(cfg, s, s', m);
    }
  }

  lemma SendCommitting(cfg: Config, s: Cluster, v: Id)
    requires Base(cfg, s) && Committing(cfg, s) && v in s.nodes
    ensures Committing(cfg, Send(cfg, s, v))
  {
    hide AppendCommit, NodeCommit, Grows, Broadcast;
    SendBase(cfg, s, v);
    assert NodeCommit(cfg, s, v) && NodeVote(s, v);
    SentCommits(cfg, s, v);
    CommittingStep(cfg, s, Send(cfg, s, v), v);
  }

  lemma CampaignCommit(cfg: Config, s: Cluster, v: Id)
    requires v in s.nodes
    ensures CommitSame(s, Campaign(cfg, s, v), v)
  {
  }

  lemma CampaignElected(cfg: Config, s: Cluster, v: Id)
    requires v in cfg.members && v in s.nodes && 1 >= Majority(Self(cfg, v))
    ensures Elected(cfg, Campaign(cfg, s, v), v)
    ensures InRange(s.nodes[v]) ==> InRange(Win(cfg, Campaign(cfg, s, v), v, false).nodes[v])
  {
    SelfMajority(cfg, v);
  }

  lemma CampaignCommitting(cfg: Config, s: Cluster, v: Id)
    requires Base(cfg, s) && Committing(cfg, s) && v in s.nodes
    ensures Base(cfg, Campaign(cfg, s, v)) && Committing(cfg, Campaign(cfg, s, v))
  {
    hide *;
    CampaignBase(cfg, s, v);
    CampaignCommit(cfg, s, v);
    CommittingKept(cfg, s, Campaign(cfg, s, v), v);
  }

  lemma TimeoutCommitting(cfg: Config, s: Cluster, v: Id)
    requires Base(cfg, s) && Committing(cfg, s) && ScanIsSafe(cfg)
    requires v in s.nodes && v in cfg.members && InRange(s.nodes[v]) && s.nodes[v].role != Leader
    ensures Committing(cfg, TimeoutStep(cfg, s, v))
  {
    hide *;
    TimeoutIs(cfg, s, v);
    CampaignCommitting(cfg, s, v);
    if 1 >= Majority(Self(cfg, v)) {
      CampaignElected(cfg, s, v);
      WinCommitting(cfg, Campaign(cfg, s, v), v, false);
      WinIsRecord(cfg, Campaign(cfg, s, v), v, false);
      HeartbeatCommitting(cfg, Win(cfg, Campaign(cfg, s, v), v, false), v);
    }
  }

  lemma WinIsRecord(cfg: Config, s: Cluster, c: Id, won: bool)
    requires c in s.nodes
    ensures c in Win(cfg, s, c, won).nodes
    ensures Win(cfg, s, c, won).nodes[c] == LeaderRecord(cfg, s.nodes[c], c, won)
  {
  }

  lemma WinCommit(cfg: Config, s: Cluster, c: Id, won: bool)
    requires c in s.nodes
    ensures CommitSame(s, Win(cfg, s, c, won), c)
  {
  }

  lemma WinCommitting(cfg: Config, s: Cluster, c: Id, won: bool)
    requires Base(cfg, s) && Committing(cfg, s) && Elected(cfg, s, c) && c in s.nodes
    ensures Base(cfg, Win(cfg, s, c, won)) && Committing(cfg, Win(cfg, s, c, won))
  {
    hide *;
    WinBase(cfg, s, c, won);
    WinCommit(cfg, s, c, won);
    CommittingKept(cfg, s, Win(cfg, s, c, won), c);
  }

  lemma HeartbeatStepCommitting(cfg: Config, s: Cluster, v: Id)
    requires Base(cfg, s) && Committing(cfg, s) && ScanIsSafe(cfg) && v in s.nodes && InRange(s.nodes[v])
    ensures Committing(cfg, HeartbeatStep(cfg, s, v))
  {
    SendBase(cfg, s, v);
    SendCommitting(cfg, s, v);
    HeartbeatCommitting(cfg, Send(cfg, s, v), v);
  }

  lemma LengthenCommit(s: Cluster, v: Id, e: Entry)
    requires v in s.nodes && s.nodes[v].currentTerm in s.reigns && InRange(s.nodes[v])
    ensures CommitSame(s, Lengthen(s, v, e), v) && InRange(Lengthen(s, v, e).nodes[v])
  {
  }

  lemma LengthenCommitting(cfg: Config, s: Cluster, v: Id, e: Entry)
    requires Base(cfg, s) && Committing(cfg, s) && v in s.nodes && InRange(s.nodes[v])
    requires s.nodes[v].role == Leader && e.term == s.nodes[v].currentTerm
    ensures s.nodes[v].currentTerm in s.reigns
    ensures Base(cfg, Lengthen(s, v, e)) && Committing(cfg, Lengthen(s, v, e))
  {
    hide *;
    LengthenBase(cfg, s, v, e);
    LengthenCommit(s, v, e);
    CommittingKept(cfg, s, Lengthen(s, v, e), v);
  }

  /** What submitCommand does to the node after the append: nothing, or two rounds of applying. */
  function AfterSubmit(me: Member, n: Node): (r: Node)
    requires InRange(n)
    ensures InRange(r)
  {
    HeartbeatTouches(me, n);
    var sent := HeartbeatNode(me, n);
    ApplyTouches(me, sent);
    if me.peers == {} then ApplyStateMachine(me, sent) else sent
  }

  lemma AfterSubmitIs(cfg: Config, s: Cluster, v: Id)
    requires v in s.nodes && InRange(s.nodes[v])
    ensures
      var sent := SetNode(s, v, HeartbeatNode(Self(cfg, v), s.nodes[v]));
      && v in sent.nodes && InRange(sent.nodes[v])
      && v in SetNode(s, v, AfterSubmit(Self(cfg, v), s.nodes[v])).nodes
      && SetNode(s, v, AfterSubmit(Self(cfg, v), s.nodes[v])) ==
         if Self(cfg, v).peers == {} then SetNode(sent, v, ApplyStateMachine(Self(cfg, v), sent.nodes[v])) else sent
  {
    HeartbeatTouches(Self(cfg, v), s.nodes[v]);
    SetNodeTwice(s, v, HeartbeatNode(Self(cfg, v), s.nodes[v]), AfterSubmit(Self(cfg, v), s.nodes[v]));
  }

  lemma SubmittedCommitting(cfg: Config, s: Cluster, v: Id)
    requires Base(cfg, s) && Committing(cfg, s) && ScanIsSafe(cfg) && v in s.nodes && InRange(s.nodes[v])
    ensures Committing(cfg, Send(cfg, SetNode(s, v, AfterSubmit(Self(cfg, v), s.nodes[v])), v))
  {
    hide *;
    AfterSubmitIs(cfg, s, v);
    HeartbeatCommitting(cfg, s, v);
    if Self(cfg, v).peers == {} {
      ApplyCommitting(cfg, SetNode(s, v, HeartbeatNode(Self(cfg, v), s.nodes[v])), v);
    }
    SendCommitting(cfg, SetNode(s, v, AfterSubmit(Self(cfg, v), s.nodes[v])), v);
  }

  lemma SubmitIsAfter(cfg: Config, s: Cluster, v: Id, command: Command)
    requires v in s.nodes && InRange(s.nodes[v]) && s.nodes[v].role == Leader && s.nodes[v].currentTerm in s.reigns
    ensures
      var longer := Lengthen(s, v, Entry(s.nodes[v].currentTerm, command));
      && v in longer.nodes && InRange(longer.nodes[v])
      && SubmitStep(cfg, s, v, command) == Send(cfg, SetNode(longer, v, AfterSubmit(Self(cfg, v), longer.nodes[v])), v)
  {
    SubmitIs(cfg, s, v, command);
    LengthenCommit(s, v, Entry(s.nodes[v].currentTerm, command));
  }

  lemma SubmitCommitting(cfg: Config, s: Cluster, v: Id, command: Command)
    requires Base(cfg, s) && Committing(cfg, s) && ScanIsSafe(cfg)
    requires v in s.nodes && InRange(s.nodes[v]) && s.nodes[v].role == Leader
    ensures Committing(cfg, SubmitStep(cfg, s, v, command))
  {
    hide *;
    LengthenCommitting(cfg, s, v, Entry(s.nodes[v].currentTerm, command));
    SubmitIsAfter(cfg, s, v, command);
    SubmittedCommitting(cfg, Lengthen(s, v, Entry(s.nodes[v].currentTerm, command)), v);
  }

  /** What votes leave alone. */
  ghost predicate SameCommit(n: Node, n': Node) {
    n'.commitIndex == n.commitIndex && n'.lastApplied == n.lastApplied && n'.applied == n.applied && n'.log == n.log
  }

  lemma VotingSameCommit(n: Node, req: VoteReq)
    ensures SameCommit(n, OnRequestVote(n, req).node) && SameCommit(n, DecideVote(n, req).node)
    ensures SameCommit(n, BecomeFollower(n, req.term))
    ensures OnRequestVote(n, req).reply.req == req && DecideVote(n, req).reply.req == req
  {
  }

  lemma VoteStepsCommit(cfg: Config, s: Cluster, req: VoteReq)
    requires req.to in s.nodes
    ensures CommitSame(s, DeliverVoteStep(s, req), req.to) && CommitSame(s, ResumeVoteStep(s, req), req.to)
  {
    VotingSameCommit(s.nodes[req.to], req);
    hide OnRequestVote, DecideVote, BecomeFollower;
  }

  lemma DeliverVoteCommitting(cfg: Config, s: Cluster, req: VoteReq)
    requires Base(cfg, s) && Committing(cfg, s) && req in s.voteReqs && req.to in s.nodes
    ensures Committing(cfg, DeliverVoteStep(s, req))
  {
    hide *;
    DeliverVoteBase(cfg, s, req);
    VoteStepsCommit(cfg, s, req);
    CommittingKept(cfg, s, DeliverVoteStep(s, req), req.to);
  }

  /** A handler that has finished waits no more. */
  lemma FinishCommitting(cfg: Config, s: Cluster, v: Id, parked: set<VoteReq>, parkedAppends: set<Paused>)
    requires Base(cfg, s) && Committing(cfg, s) && v in s.nodes && parked <= s.parked
    ensures Committing(cfg, s.(parked := parked, parkedAppends := parkedAppends))
  {
    hide Base, Committing, Grows;
    FinishBase(cfg, s, v, parked, parkedAppends);
    CommittingKept(cfg, s, s.(parked := parked, parkedAppends := parkedAppends), v);
  }

  lemma ResumeVoteCommitting(cfg: Config, s: Cluster, req: VoteReq)
    requires Base(cfg, s) && Committing(cfg, s) && req in s.parked && req.to in s.nodes
    ensures Committing(cfg, ResumeVoteStep(s, req))
  {
    hide *;
    ResumeVoteBase(cfg, s, req);
    VoteStepsCommit(cfg, s, req);
    CommittingKept(cfg, s, ResumeVoteStep(s, req), req.to);
  }

  lemma UncountedCommit(cfg: Config, s: Cluster, reply: VoteReply)
    requires reply.req.candidate in s.nodes && InRange(s.nodes[reply.req.candidate])
    requires !CountsVote(s.nodes[reply.req.candidate], reply)
    ensures CommitSame(s, ReturnVoteStep(cfg, s, reply), reply.req.candidate)
  {
    ReturnUncountedIs(cfg, s, reply);
  }

  lemma ReturnUncountedCommitting(cfg: Config, s: Cluster, reply: VoteReply)
    requires Base(cfg, s) && Committing(cfg, s)
    requires reply.req.candidate in s.nodes && InRange(s.nodes[reply.req.candidate])
    requires !CountsVote(s.nodes[reply.req.candidate], reply)
    ensures Committing(cfg, ReturnVoteStep(cfg, s, reply))
  {
    hide *;
    ReturnUncounted(cfg, s, reply);
    UncountedCommit(cfg, s, reply);
    CommittingKept(cfg, s, ReturnVoteStep(cfg, s, reply), reply.req.candidate);
  }

  lemma CountCommit(cfg: Config, s: Cluster, reply: VoteReply)
    requires reply.req.candidate in s.nodes && Countable(s, reply) && InRange(s.nodes[reply.req.candidate])
    requires reply.req.candidate in cfg.members
    ensures TermId(s.nodes[reply.req.candidate].currentTerm, reply.req.candidate) in s.ballots
    ensures CommitSame(s, Count(s, reply), reply.req.candidate)
    ensures reply.req.candidate in Count(s, reply).nodes
    ensures Count(s, reply).nodes[reply.req.candidate].votes >= Majority(Self(cfg, reply.req.candidate)) ==>
              && Elected(cfg, Count(s, reply), reply.req.candidate)
              && InRange(Win(cfg, Count(s, reply), reply.req.candidate, true).nodes[reply.req.candidate])
  {
    SelfMajority(cfg, reply.req.candidate);
  }

  lemma CountCommitting(cfg: Config, s: Cluster, reply: VoteReply)
    requires Base(cfg, s) && Committing(cfg, s) && Countable(s, reply) && InRange(s.nodes[reply.req.candidate])
    requires reply.req.candidate in cfg.members
    ensures TermId(s.nodes[reply.req.candidate].currentTerm, reply.req.candidate) in s.ballots
    ensures Base(cfg, Count(s, reply)) && Committing(cfg, Count(s, reply))
  {
    CountCommit(cfg, s, reply);
    hide *;
    CountBase(cfg, s, reply);
    CommittingKept(cfg, s, Count(s, reply), reply.req.candidate);
  }

  lemma ReturnCountedCommitting(cfg: Config, s: Cluster, reply: VoteReply)
    requires reply.req.candidate in s.nodes && reply.req.candidate in cfg.members
    requires Base(cfg, s) && Committing(cfg, s) && ScanIsSafe(cfg)
    requires Countable(s, reply) && InRange(s.nodes[reply.req.candidate]) && !s.nodes[reply.req.candidate].won
    ensures Committing(cfg, ReturnVoteStep(cfg, s, reply))
  {
    hide *;
    var c := reply.req.candidate;
    ReturnCountedIs(cfg, s, reply);
    CountCommitting(cfg, s, reply);
    CountCommit(cfg, s, reply);
    if Count(s, reply).nodes[c].votes >= Majority(Self(cfg, c)) {
      WinCommitting(cfg, Count(s, reply), c, true);
      WinIsRecord(cfg, Count(s, reply), c, true);
      var won := Win(cfg, Count(s, reply), c, true);
      HeartbeatCommitting(cfg, won, c);
      SetNodeHas(won, c, HeartbeatNode(Self(cfg, c), won.nodes[c]));
      SendCommitting(cfg, SetNode(won, c, HeartbeatNode(Self(cfg, c), won.nodes[c])), c);
    }
  }

  lemma SetNodeHas(s: Cluster, v: Id, n: Node)
    ensures v in SetNode(s, v, n).nodes && SetNode(s, v, n).nodes[v] == n
  {
  }

  lemma CandidateFacts(cfg: Config, s: Cluster, c: Id)
    requires Leaders(cfg, s) && NodeVotes(s) && c in s.nodes
    ensures c in cfg.members
    ensures s.nodes[c].role == Candidate ==> !s.nodes[c].won && TermId(s.nodes[c].currentTerm, c) in s.ballots
  {
    assert NodeVote(s, c);
  }

  lemma ReturnVoteCommitting(cfg: Config, s: Cluster, reply: VoteReply)
    requires Base(cfg, s) && Committing(cfg, s) && ScanIsSafe(cfg)
    requires reply in s.voteReplies && CallOf(reply.req) !in s.returned
    requires reply.req.candidate in s.nodes && InRange(s.nodes[reply.req.candidate])
    ensures Committing(cfg, ReturnVoteStep(cfg, s, reply))
  {
    CandidateFacts(cfg, s, reply.req.candidate);
    if CountsVote(s.nodes[reply.req.candidate], reply) {
      ReturnCountedCommitting(cfg, s, reply);
    } else {
      ReturnUncountedCommitting(cfg, s, reply);
    }
  }

  // ----- AppendEntries: the clamp -----

  /** The committed part of a follower's log survives the merge. */
  lemma StoredNodeCommit(cfg: Config, s: Cluster, m: AppendReq)
    requires Storable(s, m) && NodeLog(s, m.to) && ReignLog(s.reigns, m.term) && Completeness(cfg, s)
    requires NodeCommit(cfg, s, m.to) && Grows(s, Stored(s, m))
    ensures NodeCommit(cfg, Stored(s, m), m.to)
  {
    var n := s.nodes[m.to];
    var ll := s.reigns[m.term].log;
    var y := Merge(n.log, m.First(), m.entries);
    var x := n.log[..n.commitIndex + 1];
    StoreMerges(s, m);
    SafeInLeader(cfg, s, m.term, x);
    MergeKeepsCommon(n.log, ll, m.End(), y, x);
    NodeCommitGrows(cfg, s, Stored(s, m), m.to);
  }

  function Clamped(n: Node, m: AppendReq): Node {
    n.(commitIndex := Min(m.leaderCommit, |n.log| - 1))
  }

  /** The clamp never reaches a stale entry: up to the new commit index the log is the leader's. */
  lemma ClampIsSafe(cfg: Config, s: Cluster, m: AppendReq)
    requires Storable(s, m) && NodeLog(s, m.to) && ReignLog(s.reigns, m.term)
    requires AppendCommit(cfg, s, m) && m.leaderCommit >= 0
    ensures var y := Stored(s, m).nodes[m.to].log;
            var c := Min(m.leaderCommit, |y| - 1);
            y[..c + 1] <= s.reigns[m.term].log[..m.leaderCommit + 1]
  {
    StoreMerges(s, m);
    var ll := s.reigns[m.term].log;
    var y := Stored(s, m).nodes[m.to].log;
    var c := Min(m.leaderCommit, |y| - 1);
    if m.entries != [] {
      assert y[..c + 1] == ll[..c + 1];
    } else {
      assert y[..c + 1] == y[..m.First()][..c + 1] == ll[..m.First()][..c + 1] == ll[..c + 1];
    }
    assert ll[..c + 1] == ll[..m.leaderCommit + 1][..c + 1];
  }

  lemma ClampNodeCommit(cfg: Config, s: Cluster, m: AppendReq)
    requires Storable(s, m) && NodeLog(s, m.to) && ReignLog(s.reigns, m.term) && AppendCommit(cfg, s, m)
    requires Grows(s, Stored(s, m)) && NodeCommit(cfg, Stored(s, m), m.to)
    requires m.leaderCommit > s.nodes[m.to].commitIndex
    ensures NodeCommit(cfg, SetNode(Stored(s, m), m.to, Clamped(Stored(s, m).nodes[m.to], m)), m.to)
  {
    var stored := Stored(s, m);
    var n := stored.nodes[m.to];
    var s' := SetNode(stored, m.to, Clamped(n, m));
    var c := Clamped(n, m).commitIndex;
    ClampIsSafe(cfg, s, m);
    SafePrefixShorter(cfg, s, m.term, s.reigns[m.term].log[..m.leaderCommit + 1], n.log[..c + 1]);
    SafePrefixGrows(cfg, s, stored, m.term, m.term, n.log[..c + 1]);
    SafePrefixElsewhere(cfg, stored, s', m.term, n.log[..c + 1]);
    StoredTerm(s, m);
    hide *;
    ClampedCommit(cfg, stored, m);
  }

  lemma StoredTerm(s: Cluster, m: AppendReq)
    requires Storable(s, m)
    ensures m.to in Stored(s, m).nodes && Stored(s, m).nodes[m.to].currentTerm == m.term
    ensures Stored(s, m).nodes[m.to].commitIndex == s.nodes[m.to].commitIndex
  {
  }

  lemma ClampedCommit(cfg: Config, s: Cluster, m: AppendReq)
    requires m.to in s.nodes && NodeCommit(cfg, s, m.to) && s.nodes[m.to].currentTerm == m.term
    requires m.leaderCommit > s.nodes[m.to].commitIndex
    requires var n := s.nodes[m.to];
             -1 <= Clamped(n, m).commitIndex < |n.log|
             && SafePrefix(cfg, SetNode(s, m.to, Clamped(n, m)), m.term, n.log[..Clamped(n, m).commitIndex + 1])
    ensures NodeCommit(cfg, SetNode(s, m.to, Clamped(s.nodes[m.to], m)), m.to)
  {
    hide SafePrefix;
  }

  lemma StorableFacts(cfg: Config, s: Cluster, m: AppendReq)
    requires LogPart(cfg, s) && Committing(cfg, s) && m in s.appends && Storable(s, m)
    ensures NodeLog(s, m.to) && ReignLog(s.reigns, m.term) && NodeCommit(cfg, s, m.to) && AppendCommit(cfg, s, m)
    ensures Completeness(cfg, s) && m.First() <= |s.nodes[m.to].log|
  {
  }

  lemma StoredSame(s: Cluster, m: AppendReq)
    requires m.to in s.nodes && m.First() <= |s.nodes[m.to].log|
    ensures Stored(s, m).appends == s.appends && m.to in Stored(s, m).nodes
    ensures forall q :: q in s.nodes && q != m.to ==> Stored(s, m).nodes[q] == s.nodes[q]
  {
  }

  lemma StoredCommitting(cfg: Config, s: Cluster, m: AppendReq)
    requires Base(cfg, s) && Committing(cfg, s) && m in s.appends && Storable(s, m)
    ensures m.First() <= |s.nodes[m.to].log|
    ensures Base(cfg, Stored(s, m)) && Grows(s, Stored(s, m)) && Committing(cfg, Stored(s, m))
  {
    StorableFacts(cfg, s, m);
    StoredSame(s, m);
    hide *;
    StoredBase(cfg, s, m);
    StoredNodeCommit(cfg, s, m);
    CommittingStep(cfg, s, Stored(s, m), m.to);
  }

  lemma ClampStored(cfg: Config, s: Cluster, m: AppendReq)
    requires Base(cfg, s) && Committing(cfg, s) && m in s.appends && Storable(s, m)
    requires m.leaderCommit > s.nodes[m.to].commitIndex
    ensures m.First() <= |s.nodes[m.to].log|
    ensures NodeCommit(cfg, SetNode(Stored(s, m), m.to, Clamped(Stored(s, m).nodes[m.to], m)), m.to)
  {
    StorableFacts(cfg, s, m);
    hide *;
    StoredBase(cfg, s, m);
    StoredNodeCommit(cfg, s, m);
    ClampNodeCommit(cfg, s, m);
  }

  lemma ClampTouches(s: Cluster, m: AppendReq)
    requires m.to in s.nodes
    ensures TouchesCommit(s.nodes[m.to], Clamped(s.nodes[m.to], m))
  {
  }

  lemma ClampCommitting(cfg: Config, s: Cluster, m: AppendReq)
    requires Base(cfg, s) && Committing(cfg, s) && m.to in s.nodes
    requires NodeCommit(cfg, SetNode(s, m.to, Clamped(s.nodes[m.to], m)), m.to)
    ensures Base(cfg, SetNode(s, m.to, Clamped(s.nodes[m.to], m)))
    ensures Committing(cfg, SetNode(s, m.to, Clamped(s.nodes[m.to], m)))
  {
    hide *;
    ClampTouches(s, m);
    TouchBase(cfg, s, m.to, Clamped(s.nodes[m.to], m));
    ApplyKeepsCommitting(cfg, s, m.to, Clamped(s.nodes[m.to], m));
  }

  lemma StoreIs(cfg: Config, s: Cluster, m: AppendReq)
    requires m.to in s.nodes && PrevMatches(s.nodes[m.to].log, m)
    requires -1 <= s.nodes[m.to].lastApplied && -1 <= s.nodes[m.to].commitIndex
    ensures m.First() <= |s.nodes[m.to].log|
    ensures
      var stored := Stored(s, m);
      var clamped := SetNode(stored, m.to, Clamped(stored.nodes[m.to], m));
      && (m.leaderCommit > s.nodes[m.to].commitIndex ==> InRange(clamped.nodes[m.to]))
      && SetNode(stored, m.to, Store(Self(cfg, m.to), s.nodes[m.to], m)) ==
         if m.leaderCommit > s.nodes[m.to].commitIndex
         then SetNode(clamped, m.to, ApplyStateMachine(Self(cfg, m.to), clamped.nodes[m.to])) else stored
  {
    var stored := Stored(s, m);
    assert stored.nodes[m.to := stored.nodes[m.to]] == stored.nodes;
    SetNodeTwice(stored, m.to, Clamped(stored.nodes[m.to], m), Store(Self(cfg, m.to), s.nodes[m.to], m));
  }

  lemma StoreCommitting(cfg: Config, s: Cluster, m: AppendReq)
    requires m.to in s.nodes && PrevMatches(s.nodes[m.to].log, m)
    requires -1 <= s.nodes[m.to].lastApplied && -1 <= s.nodes[m.to].commitIndex
    requires Base(cfg, s) && Committing(cfg, s) && ScanIsSafe(cfg) && m in s.appends && Storable(s, m)
    ensures m.First() <= |s.nodes[m.to].log|
    ensures Committing(cfg, SetNode(Stored(s, m), m.to, Store(Self(cfg, m.to), s.nodes[m.to], m)))
  {
    hide *;
    StoreIs(cfg, s, m);
    StoredCommitting(cfg, s, m);
    if m.leaderCommit > s.nodes[m.to].commitIndex {
      ClampStored(cfg, s, m);
      StoredHas(s, m);
      ClampCommitting(cfg, Stored(s, m), m);
      var clamped := SetNode(Stored(s, m), m.to, Clamped(Stored(s, m).nodes[m.to], m));
      SetNodeHas(Stored(s, m), m.to, Clamped(Stored(s, m).nodes[m.to], m));
      ApplyCommitting(cfg, clamped, m.to);
    }
  }

  lemma StoredHas(s: Cluster, m: AppendReq)
    requires m.to in s.nodes && m.First() <= |s.nodes[m.to].log|
    ensures m.to in Stored(s, m).nodes
  {
  }

  lemma AcceptCommitting(cfg: Config, s: Cluster, f: Cluster, m: AppendReq)
    requires m.to in s.nodes && InRange(s.nodes[m.to]) && f == Recognised(s, m)
    requires m.to in f.nodes && PrevMatches(f.nodes[m.to].log, m) && f.nodes[m.to].currentTerm == m.term
    requires -1 <= f.nodes[m.to].lastApplied && -1 <= f.nodes[m.to].commitIndex
    requires m.term >= s.nodes[m.to].currentTerm && !SplitBrain(Self(cfg, m.to), s.nodes[m.to], m)
    requires Base(cfg, f) && Committing(cfg, f) && ScanIsSafe(cfg) && m in f.appends && Storable(f, m)
    ensures Committing(cfg, DeliverAppendStep(cfg, s, m))
  {
    AcceptIs(cfg, s, f, m);
    hide *;
    StoreCommitting(cfg, f, m);
    var kept := SetNode(Stored(f, m), m.to, Store(Self(cfg, m.to), f.nodes[m.to], m));
    CommittingReply(cfg, kept, AppendReply(m, m.term, true, None));
  }

  lemma CommittingReply(cfg: Config, s: Cluster, r: AppendReply)
    requires Committing(cfg, s)
    ensures Committing(cfg, s.(appendReplies := s.appendReplies + {r}))
  {
    var s' := s.(appendReplies := s.appendReplies + {r});
    forall v | v in s'.nodes ensures NodeCommit(cfg, s', v) {
      assert NodeCommit(cfg, s, v);
      SafePrefixElsewhere(cfg, s, s', s.nodes[v].currentTerm, s.nodes[v].log[..s.nodes[v].commitIndex + 1]);
    }
    forall m | m in s'.appends ensures m.term in s'.reigns && AppendCommit(cfg, s', m) {
      assert AppendCommit(cfg, s, m);
      SafePrefixElsewhere(cfg, s, s', m.term, s.reigns[m.term].log[..m.leaderCommit + 1]);
    }
  }

  lemma RecognisedCommit(s: Cluster, m: AppendReq)
    requires m.to in s.nodes && InRange(s.nodes[m.to])
    ensures CommitSame(s, Recognised(s, m), m.to)
    ensures InRange(Recognised(s, m).nodes[m.to]) && m.to in Recognised(s, m).nodes
    ensures m in s.appends ==> m in Recognised(s, m).appends
  {
  }

  lemma RecognisedCommitting(cfg: Config, s: Cluster, m: AppendReq)
    requires Base(cfg, s) && Committing(cfg, s) && AppendOk(s, m)
    requires m.to in s.nodes && InRange(s.nodes[m.to]) && m.term >= s.nodes[m.to].currentTerm
    ensures Base(cfg, Recognised(s, m)) && Committing(cfg, Recognised(s, m))
  {
    hide *;
    RecogniseBase(cfg, s, m);
    RecognisedCommit(s, m);
    CommittingKept(cfg, s, Recognised(s, m), m.to);
  }

  lemma DeliverCurrentCommitting(cfg: Config, s: Cluster, m: AppendReq)
    requires Base(cfg, s) && Committing(cfg, s) && ScanIsSafe(cfg) && m.to in s.nodes
    requires m in s.appends && AppendOk(s, m) && InRange(s.nodes[m.to]) && m.term >= s.nodes[m.to].currentTerm
    ensures Committing(cfg, DeliverAppendStep(cfg, s, m))
  {
    hide *;
    RecognisedCommitting(cfg, s, m);
    RecognisedCommit(s, m);
    BaseSent(cfg, Recognised(s, m), m);
    BaseNodeVotes(cfg, s);
    RecognisedStorable(cfg, s, m);
    if PrevMatches(Recognised(s, m).nodes[m.to].log, m) {
      InRangeIs(Recognised(s, m).nodes[m.to]);
      AcceptCommitting(cfg, s, Recognised(s, m), m);
    } else {
      ConflictIs(cfg, s, m);
      CommittingReply(cfg, Recognised(s, m), Refusal(Recognised(s, m), m, s.nodes[m.to].currentTerm));
    }
  }

  lemma InRangeIs(n: Node)
    requires InRange(n)
    ensures -1 <= n.lastApplied && -1 <= n.commitIndex
  {
  }

  lemma DeliverAppendCommitting(cfg: Config, s: Cluster, m: AppendReq)
    requires Base(cfg, s) && Committing(cfg, s) && ScanIsSafe(cfg)
    requires m in s.appends && m.to in s.nodes && InRange(s.nodes[m.to])
    ensures Committing(cfg, DeliverAppendStep(cfg, s, m))
  {
    SentIsOk(cfg, s, m);
    if m.term < s.nodes[m.to].currentTerm {
      StaleIs(cfg, s, m);
      CommittingReply(cfg, s, AppendReply(m, s.nodes[m.to].currentTerm, false, None));
    } else {
      DeliverCurrentCommitting(cfg, s, m);
    }
  }

  // ----- Replies -----

  lemma ReindexCommit(s: Cluster, v: Id, q: Id, next: nat, matched: int)
    requires v in s.nodes && InRange(s.nodes[v])
    ensures var s' := SetNode(s, v, Reindexed(s.nodes[v], q, next, matched));
            CommitSame(s, s', v) && v in s'.nodes && InRange(s'.nodes[v])
            && s'.nodes[v] == Reindexed(s.nodes[v], q, next, matched)
  {
  }

  lemma BaseSuccess(cfg: Config, s: Cluster, r: AppendReply)
    requires Base(cfg, s) && r in s.appendReplies && r.success && r.req.entries != []
    requires r.req.leader in s.nodes && s.nodes[r.req.leader].role == Leader
    requires s.nodes[r.req.leader].currentTerm == r.req.term
    ensures r.req.term in s.reigns && r.req.to in s.nodes && r.req.to in cfg.members - {r.req.leader}
    ensures r.req.End() <= |s.nodes[r.req.leader].log|
    ensures NextOk(s, r.req.term, r.req.to, r.req.End())
    ensures r.req.End() - 1 < Acked(s.acked, r.req.term, r.req.to)
  {
    SuccessFacts(cfg, s, r);
  }

  lemma ReturnSuccessCommitting(cfg: Config, s: Cluster, r: AppendReply)
    requires Base(cfg, s) && Committing(cfg, s) && ScanIsSafe(cfg)
    requires r in s.appendReplies && r.req.leader in s.nodes && InRange(s.nodes[r.req.leader])
    requires r.success && r.req.entries != [] && r.term <= r.req.term
    requires s.nodes[r.req.leader].role == Leader && s.nodes[r.req.leader].currentTerm == r.req.term
    ensures Committing(cfg, ReturnAppendStep(cfg, s, r))
  {
    hide *;
    var v := r.req.leader;
    BaseSuccess(cfg, s, r);
    var indexed := SetNode(s, v, Reindexed(s.nodes[v], r.req.to, r.req.End(), r.req.End() - 1));
    SuccessIs(cfg, s, r);
    ReindexBase(cfg, s, v, r.req.to, r.req.End(), r.req.End() - 1);
    ReindexCommit(s, v, r.req.to, r.req.End(), r.req.End() - 1);
    CommittingKept(cfg, s, indexed, v);
    ApplyCommitting(cfg, indexed, v);
  }

  lemma ReturnOtherCommitting(cfg: Config, s: Cluster, r: AppendReply)
    requires Committing(cfg, s) && r.req.leader in s.nodes && InRange(s.nodes[r.req.leader])
    requires Grows(s, ReturnAppendStep(cfg, s, r))
    requires !(r.success && r.req.entries != [] && r.term <= s.nodes[r.req.leader].currentTerm
               && s.nodes[r.req.leader].role == Leader && s.nodes[r.req.leader].currentTerm == r.req.term)
    ensures Committing(cfg, ReturnAppendStep(cfg, s, r))
  {
    ReplyKeepsCommit(cfg, s, r);
    hide *;
    CommittingKept(cfg, s, ReturnAppendStep(cfg, s, r), r.req.leader);
  }

  lemma ReplyKeepsCommit(cfg: Config, s: Cluster, r: AppendReply)
    requires r.req.leader in s.nodes && InRange(s.nodes[r.req.leader])
    requires !(r.success && r.req.entries != [] && r.term <= s.nodes[r.req.leader].currentTerm
               && s.nodes[r.req.leader].role == Leader && s.nodes[r.req.leader].currentTerm == r.req.term)
    ensures CommitSame(s, ReturnAppendStep(cfg, s, r), r.req.leader)
  {
    hide ApplyStateMachine;
  }

  lemma ReturnAppendCommitting(cfg: Config, s: Cluster, r: AppendReply)
    requires Base(cfg, s) && Committing(cfg, s) && ScanIsSafe(cfg)
    requires r in s.appendReplies && r.req.leader in s.nodes && InRange(s.nodes[r.req.leader])
    ensures Committing(cfg, ReturnAppendStep(cfg, s, r))
  {
    var n := s.nodes[r.req.leader];
    if r.success && r.req.entries != [] && r.term <= n.currentTerm && n.role == Leader && n.currentTerm == r.req.term {
      ReturnSuccessCommitting(cfg, s, r);
    } else {
      ReturnAppendBase(cfg, s, r);
      ReturnOtherCommitting(cfg, s, r);
    }
  }

  // ----- All steps -----

  lemma StepDownKeepsCommit(s: Cluster, req: AppendReq)
    requires req.to in s.nodes && req.term > s.nodes[req.to].currentTerm
    ensures CommitSame(s, StepDownStep(s, req), req.to)
  {
  }

  lemma StepDownCommitting(cfg: Config, s: Cluster, req: AppendReq)
    requires Base(cfg, s) && Committing(cfg, s) && req.to in s.nodes && req.term > s.nodes[req.to].currentTerm
    ensures Committing(cfg, StepDownStep(s, req))
  {
    hide *;
    StepDownForAppend(cfg, s, req);
    StepDownKeepsCommit(s, req);
    CommittingKept(cfg, s, StepDownStep(s, req), req.to);
  }

  lemma ContinuedCommitting(cfg: Config, s: Cluster, p: Paused)
    requires Base(cfg, s) && Committing(cfg, s) && ScanIsSafe(cfg)
    requires WaitOk(s, p) && !Late(cfg, s, p) && InRange(s.nodes[p.req.to])
    ensures Committing(cfg, Continued(cfg, s, p))
  {
    hide Base, Committing, ScanIsSafe, Continued, DeliverAppendStep, WaitOk;
    ContinuedIs(cfg, s, p);
    WaitFacts(s, p);
    var n := s.nodes[p.req.to];
    if n.currentTerm != p.req.term {
      CommittingReply(cfg, s, AppendReply(p.req, n.currentTerm, false, None));
    } else if PrevMatches(n.log, p.req) {
      DeliverAppendCommitting(cfg, s, p.req);
    } else {
      CommittingReply(cfg, s, Refusal(s, p.req, p.heard));
    }
  }

  lemma ResumeCommitting(cfg: Config, s: Cluster, p: Paused)
    requires Base(cfg, s) && Committing(cfg, s) && ScanIsSafe(cfg)
    requires p.req.to in s.nodes && WaitOk(s, p) && !Late(cfg, s, p) && InRange(s.nodes[p.req.to])
    ensures Committing(cfg, ResumeAppendStep(cfg, s, p))
  {
    hide Base, Committing, ScanIsSafe, Continued, WaitOk, Late, InRange, Grows;
    ContinuedBase(cfg, s, p);
    ContinuedCommitting(cfg, s, p);
    ContinuedHas(cfg, s, p);
    FinishCommitting(cfg, Continued(cfg, s, p), p.req.to, s.parked, s.parkedAppends - {p});
  }

  lemma BaseHasVotes(cfg: Config, s: Cluster)
    requires Base(cfg, s)
    ensures Leaders(cfg, s) && NodeVotes(s)
  {
  }

  lemma Rejected(cfg: Config, s: Cluster, v: Id, command: Command)
    requires v in s.nodes && InRange(s.nodes[v]) && s.nodes[v].role != Leader
    ensures SubmitStep(cfg, s, v, command) == s
  {
  }

  lemma NextCommitting(cfg: Config, s: Cluster, a: Action)
    requires Base(cfg, s) && Committing(cfg, s) && ScanIsSafe(cfg)
    requires Waiting(s) && Enabled(s, a) && InTime(cfg, s, a)
    ensures Committing(cfg, Next(cfg, s, a))
  {
    hide Base, Committing, ScanIsSafe, WaitOk;
    hide TimeoutStep, HeartbeatStep, SubmitStep, DeliverVoteStep, ResumeVoteStep, ReturnVoteStep;
    hide DeliverAppendStep, ReturnAppendStep, StepDownStep, ResumeAppendStep;
    match a
    case Timeout(id) =>
      BaseHasVotes(cfg, s);
      CandidateFacts(cfg, s, id);
      TimeoutCommitting(cfg, s, id);
    case Heartbeats(id) => HeartbeatStepCommitting(cfg, s, id);
    case Submit(id, command) =>
      if s.nodes[id].role == Leader {
        SubmitCommitting(cfg, s, id, command);
      } else {
        Rejected(cfg, s, id, command);
      }
    case DeliverVote(req) => DeliverVoteCommitting(cfg, s, req);
    case ResumeVote(req) => ResumeVoteCommitting(cfg, s, req);
    case ReturnVote(reply) => ReturnVoteCommitting(cfg, s, reply);
    case DeliverAppend(req) => DeliverAppendCommitting(cfg, s, req);
    case ReturnAppend(reply) => ReturnAppendCommitting(cfg, s, reply);
    case StepDown(req) => StepDownCommitting(cfg, s, req);
    case ResumeAppend(p) => ResumeCommitting(cfg, s, p);
  }

  lemma StepCommitting(cfg: Config, s: Cluster, s': Cluster)
    requires Base(cfg, s) && Committing(cfg, s) && ScanIsSafe(cfg) && Waiting(s) && TimelyStep(cfg, s, s')
    ensures Committing(cfg, s')
  {
    hide Base, Grows, Next, WaitOk, Committing;
    var a :| Enabled(s, a) && InTime(cfg, s, a) && s' == Next(cfg, s, a);
    NextCommitting(cfg, s, a);
  }

  lemma InitCommitting(cfg: Config)
    ensures Committing(cfg, Init(cfg))
  {
  }
}
