/**
 What matchIndex stands for: the follower really stored the leader's entries, and did so
 during the leader's term.
 */
module Acknowledged {
  import opened Commands
  import opened RaftTypes
  import opened Handlers
  import opened Clusters
  import opened Invariants
  import opened Growth
  import opened Steps
  import opened Actors
  import opened Gaps
  import opened Runs
  import opened Safety

  lemma ElectionTerm(me: Member, n: Node)
    requires InRange(n)
    ensures StartElection(me, n).currentTerm == n.currentTerm + 1
  {
  }

  lemma SubmitTerm(me: Member, n: Node, command: Command)
    requires InRange(n)
    ensures SubmitCommand(me, n, command).node.currentTerm == n.currentTerm
  {
    if n.role == Leader { SubmitTouches(me, n, command); }
  }

  lemma AppendTerm(me: Member, n: Node, m: AppendReq)
    requires InRange(n)
    ensures OnAppendEntries(me, n, m).reply.success ==> OnAppendEntries(me, n, m).node.currentTerm == m.term
  {
    var f := Recognise(n, m);
    if PrevMatches(f.log, m) { StoreTouches(me, f, m); }
  }

  /** An acknowledgement changes only while its node is in the term it is for. */
  lemma AckedInTerm(cfg: Config, s: Cluster, a: Action, t: nat, q: Id)
    requires Enabled(s, a) && Waiting(s) && InTime(cfg, s, a)
    requires Acked(Next(cfg, s, a).acked, t, q) != Acked(s.acked, t, q)
    ensures q in Next(cfg, s, a).nodes && Next(cfg, s, a).nodes[q].currentTerm == t
  {
    hide StartElection, HeartbeatNode, SubmitCommand, OnAppendEntries, OnRequestVote, DecideVote, ContinueAppend;
    hide OnVoteReply, OnAppendReply, BecomeFollower, Broadcast, Canvass;
    var me := Self(cfg, Actor(a));
    var n := s.nodes[Actor(a)];
    match a
    case Timeout(_) => ElectionTerm(me, n);
    case Submit(_, command) => SubmitTerm(me, n, command);
    case DeliverAppend(m) => AppendTerm(me, n, m);
    case ResumeAppend(p) =>
      ContinueIs(me, n, p);
      AppendTerm(me, n, p.req);
    case ReturnVote(_) =>
    case _ => OthersAcked(cfg, s, a);
  }

  lemma OthersAcked(cfg: Config, s: Cluster, a: Action)
    requires Enabled(s, a)
    requires a.Heartbeats? || a.DeliverVote? || a.ResumeVote? || a.ReturnAppend? || a.StepDown?
    ensures Next(cfg, s, a).acked == s.acked
  {
    hide HeartbeatNode, OnRequestVote, DecideVote, OnAppendReply, BecomeFollower, Broadcast, Busy, InRange;
  }

  lemma AckedHere(s: Cluster, t: nat, q: Id, k: nat)
    requires q in s.nodes && NodeLog(s, q) && s.nodes[q].currentTerm == t && 0 < k <= Acked(s.acked, t, q)
    ensures t in s.reigns && k <= |s.reigns[t].log| && s.reigns[t].log[..k] <= s.nodes[q].log
  {
    var a := Acked(s.acked, t, q);
    assert s.reigns[t].log[..k] == s.reigns[t].log[..a][..k];
    PrefixTransitive(s.reigns[t].log[..k], s.reigns[t].log[..a], s.nodes[q].log);
  }

  lemma AckedNow(cfg: Config, s: Cluster, t: nat, q: Id, k: nat)
    requires Base(cfg, s) && q in s.nodes && s.nodes[q].currentTerm == t && 0 < k <= Acked(s.acked, t, q)
    ensures t in s.reigns && k <= |s.reigns[t].log| && s.reigns[t].log[..k] <= s.nodes[q].log
  {
    hide Holds, VoteSound, Coherent, NodeVote, AppendOk;
    assert NodeLog(s, q);
    AckedHere(s, t, q, k);
  }

  lemma NothingAckedAtFirst(cfg: Config, t: nat, q: Id)
    ensures Acked(Init(cfg).acked, t, q) == 0
  {
  }

  lemma StepAcked(cfg: Config, s: Cluster, s': Cluster, t: nat, q: Id)
    requires Waiting(s) && TimelyStep(cfg, s, s') && Acked(s'.acked, t, q) != Acked(s.acked, t, q)
    ensures q in s'.nodes && s'.nodes[q].currentTerm == t
  {
    hide Next, WaitOk;
    var a :| Enabled(s, a) && InTime(cfg, s, a) && s' == Next(cfg, s, a);
    AckedInTerm(cfg, s, a, t, q);
  }

  /** The moment at which q had stored the first k entries of term t's leader, in term t. */
  ghost predicate StoredAt(run: seq<Cluster>, i: nat, t: nat, q: Id, x: Log)
    requires i < |run|
  {
    q in run[i].nodes && run[i].nodes[q].currentTerm == t && x <= run[i].nodes[q].log
  }

  lemma {:induction false} AckWitness(cfg: Config, run: seq<Cluster>, j: nat, t: nat, q: Id, k: nat) returns (i: nat)
    requires ValidConfig(cfg) && IsTimelyRun(cfg, run) && j < |run| && 0 < k <= Acked(run[j].acked, t, q)
    ensures t in run[j].reigns && k <= |run[j].reigns[t].log|
    ensures i <= j && StoredAt(run, i, t, q, run[j].reigns[t].log[..k])
    decreases j
  {
    hide *;
    RunBaseAt(cfg, run, j);
    if j == 0 {
      RunStart(cfg, run);
      NothingAckedAtFirst(cfg, t, q);
      assert false;
    } else if k <= Acked(run[j - 1].acked, t, q) {
      i := AckWitness(cfg, run, j - 1, t, q, k);
      RunGrows(cfg, run, j - 1, j);
      ReignStays(run[j - 1], run[j], t);
      LogStays(run[j - 1], run[j], t, k);
    } else {
      TimelyRunStep(cfg, run, j - 1);
      TimelyRunWaiting(cfg, run, j - 1);
      StepAcked(cfg, run[j - 1], run[j], t, q);
      AckedNow(cfg, run[j], t, q, k);
      i := j;
      StoredNow(run, j, t, q, k);
    }
  }

  lemma StoredNow(run: seq<Cluster>, j: nat, t: nat, q: Id, k: nat)
    requires j < |run| && q in run[j].nodes && run[j].nodes[q].currentTerm == t
    requires t in run[j].reigns && k <= |run[j].reigns[t].log| && run[j].reigns[t].log[..k] <= run[j].nodes[q].log
    ensures StoredAt(run, j, t, q, run[j].reigns[t].log[..k])
  {
  }

  lemma RunStart(cfg: Config, run: seq<Cluster>)
    requires IsTimelyRun(cfg, run)
    ensures run[0] == Init(cfg)
  {
  }

  lemma LogStays(s: Cluster, s': Cluster, t: nat, k: nat)
    requires t in s.reigns && ReignGrows(s, s', t) && k <= |s.reigns[t].log|
    ensures t in s'.reigns && k <= |s'.reigns[t].log| && s'.reigns[t].log[..k] == s.reigns[t].log[..k]
  {
  }

  lemma MatchIsAcked(cfg: Config, s: Cluster, p: Id, q: Id)
    requires Base(cfg, s) && p in s.nodes && s.nodes[p].role == Leader
    ensures s.nodes[p].nextIndex.Keys == s.nodes[p].matchIndex.Keys == cfg.members - {p}
    ensures q in s.nodes[p].matchIndex ==>
              s.nodes[p].matchIndex[q] < Acked(s.acked, s.nodes[p].currentTerm, q)
              && s.nodes[p].nextIndex[q] <= |s.nodes[p].log|
  {
    assert NodeVote(s, p) && Leads(cfg, s, p);
  }

  /** matchIndex is sound, although a late reply may lower it: if leader p has matchIndex[q] >= n,
      then at some moment q was in p's term with p's entries 0..n at the start of its log. */
  lemma MatchIndexSound(cfg: Config, run: seq<Cluster>, j: nat, p: Id, q: Id, n: nat) returns (i: nat)
    requires ValidConfig(cfg) && IsTimelyRun(cfg, run) && j < |run|
    requires p in run[j].nodes && run[j].nodes[p].role == Leader
    requires q in run[j].nodes[p].matchIndex && run[j].nodes[p].matchIndex[q] >= n
    ensures n < |run[j].nodes[p].log|
    ensures i <= j && StoredAt(run, i, run[j].nodes[p].currentTerm, q, run[j].nodes[p].log[..n + 1])
  {
    hide *;
    RunBaseAt(cfg, run, j);
    MatchIsAcked(cfg, run[j], p, q);
    LeaderHasReign(cfg, run[j], p);
    i := AckWitness(cfg, run, j, run[j].nodes[p].currentTerm, q, n + 1);
  }

  /** A leader's nextIndex never points past its log, and it tracks exactly its peers. */
  lemma NextIndexInLog(cfg: Config, s: Cluster, p: Id, q: Id)
    requires ValidConfig(cfg) && TimelyReachable(cfg, s) && p in s.nodes && s.nodes[p].role == Leader
    requires q in cfg.members && q != p
    ensures q in s.nodes[p].nextIndex && 0 <= s.nodes[p].nextIndex[q] <= |s.nodes[p].log|
  {
    hide Base;
    TimelyBase(cfg, s);
    MatchIsAcked(cfg, s, p, q);
  }
}
