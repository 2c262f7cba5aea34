/**
 The guarantees of Figure 3 of the Raft paper, for whole runs of the cluster.
 */
module Safety {
  import opened Commands
  import opened RaftTypes
  import opened LogMerge
  import opened Handlers
  import opened Clusters
  import opened Invariants
  import opened Growth
  import opened CrownMerge
  import opened Replications
  import opened Steps
  import opened CommitSteps
  import opened Actors
  import opened Gaps
  import opened Runs

  // ----- Election Safety -----

  lemma LeaderHasReign(cfg: Config, s: Cluster, v: Id)
    requires Base(cfg, s) && v in s.nodes && s.nodes[v].role == Leader
    ensures s.nodes[v].currentTerm in s.reigns
    ensures s.reigns[s.nodes[v].currentTerm].leader == v
    ensures s.reigns[s.nodes[v].currentTerm].log == s.nodes[v].log
  {
    assert NodeVote(s, v);
  }

  // ----- Logs -----

  /** Log Matching: logs that hold the same term at one index agree up to it, also across time. */
  lemma LogMatching(cfg: Config, run: seq<Cluster>, i: nat, j: nat, a: Id, b: Id, k: nat)
    requires ValidConfig(cfg) && IsTimelyRun(cfg, run) && i <= j < |run|
    requires a in run[i].nodes && k < |run[i].nodes[a].log|
    requires b in run[j].nodes && k < |run[j].nodes[b].log|
    requires run[i].nodes[a].log[k].term == run[j].nodes[b].log[k].term
    ensures run[i].nodes[a].log[..k + 1] == run[j].nodes[b].log[..k + 1]
  {
    hide Base;
    RunBaseAt(cfg, run, i);
    RunBaseAt(cfg, run, j);
    RunGrows(cfg, run, i, j);
    NodeLogCoherent(cfg, run[i], a);
    NodeLogCoherent(cfg, run[j], b);
    CoherentGrows(run[i], run[j], run[i].nodes[a].log);
    SameTermSamePrefix(run[j].reigns, run[i].nodes[a].log, run[j].nodes[b].log, k);
  }

  lemma NodeLogCoherent(cfg: Config, s: Cluster, v: Id)
    requires Base(cfg, s) && v in s.nodes
    ensures Coherent(s.reigns, s.nodes[v].log)
  {
    assert NodeLog(s, v);
  }

  /** Leader Append-Only: while its term lasts a leader stays leader, and its log only grows. */
  lemma LeaderAppendOnly(cfg: Config, run: seq<Cluster>, i: nat, j: nat, v: Id)
    requires ValidConfig(cfg) && IsTimelyRun(cfg, run) && i <= j < |run|
    requires v in run[i].nodes && run[i].nodes[v].role == Leader
    requires v in run[j].nodes && run[j].nodes[v].currentTerm == run[i].nodes[v].currentTerm
    ensures run[j].nodes[v].role == Leader && run[i].nodes[v].log <= run[j].nodes[v].log
  {
    hide Base;
    RunBaseAt(cfg, run, i);
    RunBaseAt(cfg, run, j);
    RunGrows(cfg, run, i, j);
    LeaderHasReign(cfg, run[i], v);
    assert ReignGrows(run[i], run[j], run[i].nodes[v].currentTerm);
    ReignHolderLeads(cfg, run[j], v);
    LeaderHasReign(cfg, run[j], v);
  }

  lemma ReignHolderLeads(cfg: Config, s: Cluster, v: Id)
    requires Base(cfg, s) && v in s.nodes
    requires s.nodes[v].currentTerm in s.reigns && s.reigns[s.nodes[v].currentTerm].leader == v
    ensures s.nodes[v].role == Leader
  {
    assert NodeVote(s, v);
  }

  // ----- Commit -----

  lemma NodeIsSafe(cfg: Config, s: Cluster, v: Id)
    requires Committing(cfg, s) && v in s.nodes
    ensures NodeCommit(cfg, s, v)
  {
  }

  /** The indices stay in order and inside the log, and what was applied is the log's
      beginning, each entry once and in order. */
  lemma AppliedInOrder(cfg: Config, s: Cluster, v: Id)
    requires ValidConfig(cfg) && ScanIsSafe(cfg) && TimelyReachable(cfg, s) && v in s.nodes
    ensures -1 <= s.nodes[v].lastApplied <= s.nodes[v].commitIndex < |s.nodes[v].log|
    ensures s.nodes[v].applied == s.nodes[v].log[..s.nodes[v].lastApplied + 1]
  {
    hide Base;
    hide Committing;
    TimelyCommitting(cfg, s);
    NodeIsSafe(cfg, s, v);
  }

  /** Two safe prefixes are comparable. */
  lemma SafePrefixesAgree(cfg: Config, s: Cluster, t: nat, x: Log, t': nat, y: Log)
    requires Completeness(cfg, s) && SafePrefix(cfg, s, t, x) && SafePrefix(cfg, s, t', y)
    ensures x <= y || y <= x
  {
    if x != [] && y != [] {
      var t0: nat, k: nat :| t0 <= t && Committed(cfg, s, t0, k) && x <= s.reigns[t0].log[..k];
      var t1: nat, l: nat :| t1 <= t' && Committed(cfg, s, t1, l) && y <= s.reigns[t1].log[..l];
      var last := if t0 <= t1 then t1 else t0;
      CommittedInLaterLeader(cfg, s, t0, k, last);
      CommittedInLaterLeader(cfg, s, t1, l, last);
      PrefixTransitive(x, s.reigns[t0].log[..k], s.reigns[last].log);
      PrefixTransitive(y, s.reigns[t1].log[..l], s.reigns[last].log);
    }
  }

  predicate CommitInLog(n: Node) {
    -1 <= n.commitIndex < |n.log|
  }

  /** What a node has committed. */
  function CommittedLog(n: Node): Log
    requires CommitInLog(n)
  {
    n.log[..n.commitIndex + 1]
  }

  lemma CommittedLogSafe(cfg: Config, run: seq<Cluster>, i: nat, j: nat, a: Id)
    requires ValidConfig(cfg) && ScanIsSafe(cfg) && IsTimelyRun(cfg, run) && i <= j < |run| && a in run[i].nodes
    ensures CommitInLog(run[i].nodes[a])
    ensures SafePrefix(cfg, run[j], run[i].nodes[a].currentTerm, CommittedLog(run[i].nodes[a]))
    ensures run[i].nodes[a].applied <= CommittedLog(run[i].nodes[a])
  {
    hide Base;
    hide Committing;
    RunCommittingAt(cfg, run, i);
    NodeIsSafe(cfg, run[i], a);
    RunGrows(cfg, run, i, j);
    SafePrefixGrows(cfg, run[i], run[j], run[i].nodes[a].currentTerm, run[i].nodes[a].currentTerm,
                    CommittedLog(run[i].nodes[a]));
  }

  lemma BaseIsComplete(cfg: Config, s: Cluster)
    requires Base(cfg, s)
    ensures Completeness(cfg, s)
  {
  }

  /** State Machine Safety: what any two nodes have committed, at any two times, agrees. */
  lemma CommitsAgree(cfg: Config, run: seq<Cluster>, i: nat, j: nat, a: Id, b: Id)
    requires ValidConfig(cfg) && ScanIsSafe(cfg) && IsTimelyRun(cfg, run) && i < |run| && j < |run|
    requires a in run[i].nodes && b in run[j].nodes
    ensures CommitInLog(run[i].nodes[a]) && CommitInLog(run[j].nodes[b])
    ensures || CommittedLog(run[i].nodes[a]) <= CommittedLog(run[j].nodes[b])
            || CommittedLog(run[j].nodes[b]) <= CommittedLog(run[i].nodes[a])
  {
    hide *;
    var k := if i <= j then j else i;
    CommittedLogSafe(cfg, run, i, k, a);
    CommittedLogSafe(cfg, run, j, k, b);
    RunBaseAt(cfg, run, k);
    BaseIsComplete(cfg, run[k]);
    SafePrefixesAgree(cfg, run[k], run[i].nodes[a].currentTerm, CommittedLog(run[i].nodes[a]),
                      run[j].nodes[b].currentTerm, CommittedLog(run[j].nodes[b]));
  }

  lemma PrefixesComparable(a: Log, x: Log, b: Log, y: Log)
    requires a <= x && b <= y && (x <= y || y <= x)
    ensures a <= b || b <= a
  {
    var z := if x <= y then y else x;
    PrefixTransitive(a, x, z);
    PrefixTransitive(b, y, z);
  }

  /** State Machine Safety for the applied sequences: one is a prefix of the other. */
  lemma StateMachineSafety(cfg: Config, run: seq<Cluster>, i: nat, j: nat, a: Id, b: Id)
    requires ValidConfig(cfg) && ScanIsSafe(cfg) && IsTimelyRun(cfg, run) && i < |run| && j < |run|
    requires a in run[i].nodes && b in run[j].nodes
    ensures run[i].nodes[a].applied <= run[j].nodes[b].applied || run[j].nodes[b].applied <= run[i].nodes[a].applied
  {
    hide *;
    CommitsAgree(cfg, run, i, j, a, b);
    CommittedLogSafe(cfg, run, i, i, a);
    CommittedLogSafe(cfg, run, j, j, b);
    PrefixesComparable(run[i].nodes[a].applied, CommittedLog(run[i].nodes[a]),
                       run[j].nodes[b].applied, CommittedLog(run[j].nodes[b]));
  }

  /** The entries of earlier terms that a later leader holds it already held when elected. */
  lemma HeldAtElection(s: Cluster, s': Cluster, t: nat, x: Log)
    requires Grows(s, s') && t in s.reigns && ReignLog(s.reigns, t) && t in s'.reigns && ReignLog(s'.reigns, t)
    requires x <= s'.reigns[t].log && forall i :: 0 <= i < |x| ==> x[i].term < t
    ensures x <= s.reigns[t].log
  {
    assert ReignGrows(s, s', t);
    var ll := s'.reigns[t].log;
    var r := s.reigns[t];
    forall i | 0 <= i < |x| ensures ll[i].term < t { assert x[i] == ll[i]; }
    assert r.start < |ll| ==> ll[r.start].term == t;
    assert |x| <= r.start;
    PrefixOfSame(x, r.log, ll);
  }

  lemma OldEntries(cfg: Config, s: Cluster, v: Id)
    requires Base(cfg, s) && v in s.nodes && CommitInLog(s.nodes[v])
    ensures forall k :: 0 <= k < |CommittedLog(s.nodes[v])| ==> CommittedLog(s.nodes[v])[k].term <= s.nodes[v].currentTerm
  {
    assert NodeLog(s, v);
  }

  lemma BaseReign(cfg: Config, s: Cluster, t: nat)
    requires Base(cfg, s) && t in s.reigns
    ensures ReignLog(s.reigns, t)
  {
  }

  /** Leader Completeness: whatever a node has committed, every leader of a later term has
      in its log, whether it was elected before or after. */
  lemma LeaderCompleteness(cfg: Config, run: seq<Cluster>, i: nat, j: nat, a: Id, leader: Id)
    requires ValidConfig(cfg) && ScanIsSafe(cfg) && IsTimelyRun(cfg, run) && i < |run| && j < |run|
    requires a in run[i].nodes && leader in run[j].nodes && run[j].nodes[leader].role == Leader
    requires run[i].nodes[a].currentTerm < run[j].nodes[leader].currentTerm
    ensures CommitInLog(run[i].nodes[a]) && CommittedLog(run[i].nodes[a]) <= run[j].nodes[leader].log
  {
    hide *;
    var k := if i <= j then j else i;
    var t := run[j].nodes[leader].currentTerm;
    CommittedLogSafe(cfg, run, i, k, a);
    RunBaseAt(cfg, run, i);
    RunBaseAt(cfg, run, j);
    RunBaseAt(cfg, run, k);
    RunGrows(cfg, run, j, k);
    LeaderHasReign(cfg, run[j], leader);
    ReignStays(run[j], run[k], t);
    SafeInLaterTerm(cfg, run[k], run[i].nodes[a].currentTerm, t, CommittedLog(run[i].nodes[a]));
    OldEntries(cfg, run[i], a);
    BaseReign(cfg, run[j], t);
    BaseReign(cfg, run[k], t);
    HeldAtElection(run[j], run[k], t, CommittedLog(run[i].nodes[a]));
  }

  lemma ReignStays(s: Cluster, s': Cluster, t: nat)
    requires Grows(s, s') && t in s.reigns
    ensures ReignGrows(s, s', t) && t in s'.reigns
  {
  }

  lemma SafeInLaterTerm(cfg: Config, s: Cluster, t: nat, t1: nat, x: Log)
    requires Base(cfg, s) && SafePrefix(cfg, s, t, x) && t <= t1 && t1 in s.reigns
    ensures x <= s.reigns[t1].log
  {
    if x != [] {
      var t0: nat, k: nat :| t0 <= t && Committed(cfg, s, t0, k) && x <= s.reigns[t0].log[..k];
      CommittedInLaterLeader(cfg, s, t0, k, t1);
      PrefixTransitive(x, s.reigns[t0].log[..k], s.reigns[t1].log);
    }
  }

  /** What a node has committed is part of the log of every leader of its term or a later one. */
  lemma CommitFollowsLeader(cfg: Config, s: Cluster, v: Id, leader: Id)
    requires ValidConfig(cfg) && ScanIsSafe(cfg) && TimelyReachable(cfg, s)
    requires v in s.nodes && leader in s.nodes && s.nodes[leader].role == Leader
    requires s.nodes[leader].currentTerm >= s.nodes[v].currentTerm
    ensures CommitInLog(s.nodes[v]) && CommittedLog(s.nodes[v]) <= s.nodes[leader].log
  {
    hide Base;
    hide Committing;
    hide SafePrefix;
    TimelyCommitting(cfg, s);
    NodeIsSafe(cfg, s, v);
    LeaderHasReign(cfg, s, leader);
    SafeInLaterTerm(cfg, s, s.nodes[v].currentTerm, s.nodes[leader].currentTerm, CommittedLog(s.nodes[v]));
  }

  lemma CommitMovesInTerm(me: Member, n: Node, m: AppendReq)
    requires InRange(n)
    ensures OnAppendEntries(me, n, m).node.commitIndex != n.commitIndex ==>
              OnAppendEntries(me, n, m).node.currentTerm == m.term
  {
    var f := Recognise(n, m);
    if PrevMatches(f.log, m) { StoreTouches(me, f, m); }
  }

  lemma DeliveryKeepsReigns(cfg: Config, s: Cluster, m: AppendReq)
    requires Enabled(s, DeliverAppend(m))
    ensures Next(cfg, s, DeliverAppend(m)).reigns == s.reigns && m in s.appends && m.to in s.nodes && InRange(s.nodes[m.to])
    ensures m.to in Next(cfg, s, DeliverAppend(m)).nodes
    ensures Next(cfg, s, DeliverAppend(m)).nodes[m.to] == OnAppendEntries(Self(cfg, m.to), s.nodes[m.to], m).node
  {
  }

  lemma DeliveryInTime(cfg: Config, s: Cluster, m: AppendReq)
    requires Enabled(s, DeliverAppend(m))
    ensures InTime(cfg, s, DeliverAppend(m))
  {
  }

  lemma SenderReign(cfg: Config, s: Cluster, m: AppendReq)
    requires Base(cfg, s) && m in s.appends
    ensures m.term in s.reigns && s.reigns[m.term].leader == m.leader
  {
    assert AppendOk(s, m);
  }

  /** The clamp min(leaderCommit, log.size()-1) never commits a stale trailing entry: when a
      request raises commitIndex, the log up to it is part of the sender's. */
  lemma ClampFollowsSender(cfg: Config, s: Cluster, m: AppendReq)
    requires ValidConfig(cfg) && ScanIsSafe(cfg) && TimelyReachable(cfg, s) && Enabled(s, DeliverAppend(m))
    requires m.to in Next(cfg, s, DeliverAppend(m)).nodes
    requires Next(cfg, s, DeliverAppend(m)).nodes[m.to].commitIndex != s.nodes[m.to].commitIndex
    ensures m.term in s.reigns && s.reigns[m.term].leader == m.leader
    ensures CommitInLog(Next(cfg, s, DeliverAppend(m)).nodes[m.to])
    ensures CommittedLog(Next(cfg, s, DeliverAppend(m)).nodes[m.to]) <= s.reigns[m.term].log
  {
    hide *;
    var s' := Next(cfg, s, DeliverAppend(m));
    DeliveryKeepsReigns(cfg, s, m);
    CommitMovesInTerm(Self(cfg, m.to), s.nodes[m.to], m);
    TimelyBase(cfg, s);
    SenderReign(cfg, s, m);
    DeliveryInTime(cfg, s, m);
    TimelyNext(cfg, s, DeliverAppend(m));
    TimelyCommitting(cfg, s');
    SafeCommitted(cfg, s', m.to);
    SafeInLaterTerm(cfg, s', m.term, m.term, CommittedLog(s'.nodes[m.to]));
  }

  lemma SafeCommitted(cfg: Config, s: Cluster, v: Id)
    requires Committing(cfg, s) && v in s.nodes
    ensures CommitInLog(s.nodes[v]) && SafePrefix(cfg, s, s.nodes[v].currentTerm, CommittedLog(s.nodes[v]))
  {
    NodeIsSafe(cfg, s, v);
  }

  // ----- Nothing committed is lost -----

  ghost predicate Rises(n: Node, n': Node) {
    n.commitIndex <= n'.commitIndex && n.lastApplied <= n'.lastApplied
  }

  lemma SubmitRises(me: Member, n: Node, command: Command)
    requires InRange(n)
    ensures Rises(n, SubmitCommand(me, n, command).node)
  {
    var longer := n.(log := n.log + [Entry(n.currentTerm, command)]);
    HeartbeatTouches(me, longer);
    ApplyTouches(me, HeartbeatNode(me, longer));
    ApplyRises(me, longer);
    ApplyRises(me, HeartbeatNode(me, longer));
    hide ApplyStateMachine;
  }

  lemma StoreRises(me: Member, n: Node, m: AppendReq)
    requires -1 <= n.lastApplied && -1 <= n.commitIndex && PrevMatches(n.log, m)
    requires n.commitIndex < |Merge(n.log, m.First(), m.entries)|
    ensures Rises(n, Store(me, n, m))
  {
  }

  lemma AppendRises(cfg: Config, s: Cluster, m: AppendReq)
    requires Base(cfg, s) && Committing(cfg, s)
    requires m in s.appends && m.to in s.nodes && InRange(s.nodes[m.to])
    ensures Rises(s.nodes[m.to], OnAppendEntries(Self(cfg, m.to), s.nodes[m.to], m).node)
  {
    SentIsOk(cfg, s, m);
    if m.term >= s.nodes[m.to].currentTerm {
      var f := Recognised(s, m);
      hide *;
      RecognisedAppendRises(cfg, s, m);
      AppendIsStore(cfg, s, m);
      if PrevMatches(f.nodes[m.to].log, m) {
        StoreRises(Self(cfg, m.to), f.nodes[m.to], m);
      }
    }
  }

  /** What is committed survives the merge of a request whose consistency check passes. */
  lemma StoredRises(cfg: Config, s: Cluster, m: AppendReq)
    requires Base(cfg, s) && Committing(cfg, s) && m in s.appends && Storable(s, m) && m.to in s.nodes
    ensures m.First() <= |s.nodes[m.to].log|
    ensures s.nodes[m.to].commitIndex < |Merge(s.nodes[m.to].log, m.First(), m.entries)|
  {
    hide Base, Committing, SafePrefix;
    StoredCommitting(cfg, s, m);
    StoredHas(s, m);
    NodeIsSafe(cfg, Stored(s, m), m.to);
  }

  lemma RecognisedAppendRises(cfg: Config, s: Cluster, m: AppendReq)
    requires Base(cfg, s) && Committing(cfg, s) && AppendOk(s, m)
    requires m in s.appends && m.to in s.nodes && InRange(s.nodes[m.to]) && m.term >= s.nodes[m.to].currentTerm
    ensures m.to in Recognised(s, m).nodes
    ensures var n := Recognised(s, m).nodes[m.to];
            PrevMatches(n.log, m) ==> m.First() <= |n.log| && n.commitIndex < |Merge(n.log, m.First(), m.entries)|
  {
    hide *;
    RecognisedCommitting(cfg, s, m);
    RecognisedCommit(s, m);
    BaseNodeVotes(cfg, s);
    BaseSent(cfg, Recognised(s, m), m);
    RecognisedStorable(cfg, s, m);
    if PrevMatches(Recognised(s, m).nodes[m.to].log, m) {
      StoredRises(cfg, Recognised(s, m), m);
    }
  }

  lemma AppendIsStore(cfg: Config, s: Cluster, m: AppendReq)
    requires m.to in s.nodes && InRange(s.nodes[m.to]) && m.term >= s.nodes[m.to].currentTerm
    ensures m.to in Recognised(s, m).nodes
    ensures
      var n := s.nodes[m.to];
      var f := Recognised(s, m).nodes[m.to];
      var n' := OnAppendEntries(Self(cfg, m.to), n, m).node;
      && f.commitIndex == n.commitIndex && f.lastApplied == n.lastApplied
      && -1 <= f.lastApplied && -1 <= f.commitIndex
      && (PrevMatches(f.log, m) ==> n' == Store(Self(cfg, m.to), f, m) || Rises(n, n'))
      && (!PrevMatches(f.log, m) ==> Rises(n, n'))
      && (Rises(f, n') ==> Rises(n, n'))
  {
  }

  lemma StepRises(cfg: Config, s: Cluster, s': Cluster, v: Id)
    requires Base(cfg, s) && Committing(cfg, s) && Waiting(s) && TimelyStep(cfg, s, s') && v in s.nodes
    ensures v in s'.nodes && Rises(s.nodes[v], s'.nodes[v])
  {
    hide Base;
    hide Committing;
    var a :| Enabled(s, a) && InTime(cfg, s, a) && s' == Next(cfg, s, a);
    NextNodes(cfg, s, a);
    if v == Actor(a) {
      ActorRises(cfg, s, a);
    }
  }

  lemma ResumeRises(cfg: Config, s: Cluster, p: Paused)
    requires Base(cfg, s) && Committing(cfg, s) && WaitOk(s, p) && !Late(cfg, s, p) && InRange(s.nodes[p.req.to])
    ensures Rises(s.nodes[p.req.to], ContinueAppend(Self(cfg, p.req.to), s.nodes[p.req.to], p).node)
  {
    hide Base, Committing, OnAppendEntries, ContinueAppend;
    ContinueIs(Self(cfg, p.req.to), s.nodes[p.req.to], p);
    AppendRises(cfg, s, p.req);
  }

  lemma ActorRises(cfg: Config, s: Cluster, a: Action)
    requires Base(cfg, s) && Committing(cfg, s) && Enabled(s, a)
    requires Waiting(s) && InTime(cfg, s, a)
    ensures Rises(s.nodes[Actor(a)], ActorAfter(cfg, s, a))
  {
    hide Base;
    hide Committing;
    if a.DeliverAppend? {
      AppendRises(cfg, s, a.areq);
    } else if a.ResumeAppend? {
      ResumeRises(cfg, s, a.paused);
    } else {
      OtherRises(cfg, s, a);
    }
  }

  lemma ApplyRises(me: Member, n: Node)
    requires InRange(n)
    ensures Rises(n, ApplyStateMachine(me, n)) && Rises(n, HeartbeatNode(me, n))
  {
    hide Committable;
  }

  lemma LeaderRises(me: Member, n: Node)
    requires InRange(n)
    ensures Rises(n, BecomeLeader(me, n))
  {
    var l := n.(role := Leader,
                nextIndex := n.nextIndex + map q | q in me.peers :: |n.log|,
                matchIndex := n.matchIndex + map q | q in me.peers :: -1);
    ApplyRises(me, l);
    hide HeartbeatNode;
  }

  lemma VotingRises(me: Member, n: Node, req: VoteReq, reply: VoteReply)
    requires InRange(n)
    ensures Rises(n, OnRequestVote(n, req).node) && Rises(n, DecideVote(n, req).node)
    ensures Rises(n, OnVoteReply(me, n, reply))
  {
    LeaderRises(me, n.(votes := n.votes + 1, won := true));
    hide BecomeLeader;
  }

  lemma ElectionRises(me: Member, n: Node)
    requires InRange(n)
    ensures Rises(n, StartElection(me, n))
  {
    LeaderRises(me, n.(role := Candidate, currentTerm := n.currentTerm + 1, votedFor := me.id, votes := 1, won := false));
    hide BecomeLeader;
  }

  lemma ReplyRises(me: Member, n: Node, reply: AppendReply)
    requires InRange(n)
    ensures Rises(n, OnAppendReply(me, n, reply))
  {
    ApplyRises(me, n.(
      matchIndex := n.matchIndex[reply.req.to := reply.req.End() - 1],
      nextIndex := n.nextIndex[reply.req.to := reply.req.End()]));
    hide ApplyStateMachine;
  }

  lemma DownRises(n: Node, term: nat)
    ensures Rises(n, BecomeFollower(n, term))
  {
  }

  lemma OtherRises(cfg: Config, s: Cluster, a: Action)
    requires Enabled(s, a) && !a.DeliverAppend? && !a.ResumeAppend?
    ensures Rises(s.nodes[Actor(a)], ActorAfter(cfg, s, a))
  {
    hide StartElection, HeartbeatNode, SubmitCommand, OnRequestVote, DecideVote, OnVoteReply, OnAppendReply, BecomeFollower;
    hide Rises;
    var me := Self(cfg, Actor(a));
    var n := s.nodes[Actor(a)];
    match a
    case Timeout(_) => ElectionRises(me, n);
    case Heartbeats(_) => ApplyRises(me, n);
    case Submit(_, command) => SubmitRises(me, n, command);
    case DeliverVote(req) =>
      VotingRises(me, n, req, VoteReply(req, 0, false));
      DownRises(n, req.term);
    case ResumeVote(req) => VotingRises(me, n, req, VoteReply(req, 0, false));
    case ReturnVote(reply) => VotingRises(me, n, reply.req, reply);
    case ReturnAppend(reply) => ReplyRises(me, n, reply);
    case StepDown(m) => DownRises(n, m.term);
    case _ =>
  }

  lemma RisesReflexive(n: Node)
    ensures Rises(n, n)
  {
  }

  lemma RisesTransitive(a: Node, b: Node, c: Node)
    requires Rises(a, b) && Rises(b, c)
    ensures Rises(a, c)
  {
  }

  lemma {:induction false} RunRises(cfg: Config, run: seq<Cluster>, i: nat, j: nat, v: Id)
    requires ValidConfig(cfg) && ScanIsSafe(cfg) && IsTimelyRun(cfg, run) && i <= j < |run| && v in run[i].nodes
    ensures v in run[j].nodes && Rises(run[i].nodes[v], run[j].nodes[v])
    decreases j
  {
    hide *;
    if i == j {
      RisesReflexive(run[i].nodes[v]);
    } else {
      RunRises(cfg, run, i, j - 1, v);
      RunBaseAt(cfg, run, j - 1);
      RunCommittingAt(cfg, run, j - 1);
      TimelyRunStep(cfg, run, j - 1);
      TimelyRunWaiting(cfg, run, j - 1);
      StepRises(cfg, run[j - 1], run[j], v);
      RisesTransitive(run[i].nodes[v], run[j - 1].nodes[v], run[j].nodes[v]);
    }
  }

  lemma LongerOfComparable(x: Log, y: Log)
    requires (x <= y || y <= x) && |x| <= |y|
    ensures x <= y
  {
  }

  lemma IndicesAreLengths(cfg: Config, s: Cluster, v: Id)
    requires Committing(cfg, s) && v in s.nodes
    ensures CommitInLog(s.nodes[v]) && |CommittedLog(s.nodes[v])| == s.nodes[v].commitIndex + 1
    ensures |s.nodes[v].applied| == s.nodes[v].lastApplied + 1
  {
    NodeIsSafe(cfg, s, v);
  }

  /** Committed entries are never truncated or replaced, applied ones never undone. */
  lemma CommittedNeverLost(cfg: Config, run: seq<Cluster>, i: nat, j: nat, v: Id)
    requires ValidConfig(cfg) && ScanIsSafe(cfg) && IsTimelyRun(cfg, run) && i <= j < |run| && v in run[i].nodes
    ensures v in run[j].nodes && CommitInLog(run[i].nodes[v]) && CommitInLog(run[j].nodes[v])
    ensures run[i].nodes[v].commitIndex <= run[j].nodes[v].commitIndex
    ensures CommittedLog(run[i].nodes[v]) <= CommittedLog(run[j].nodes[v])
    ensures run[i].nodes[v].applied <= run[j].nodes[v].applied
  {
    RunRises(cfg, run, i, j, v);
    hide Base, Committing, IsTimelyRun, CommittedLog;
    CommitsAgree(cfg, run, i, j, v, v);
    StateMachineSafety(cfg, run, i, j, v, v);
    RunCommittingAt(cfg, run, i);
    RunCommittingAt(cfg, run, j);
    IndicesAreLengths(cfg, run[i], v);
    IndicesAreLengths(cfg, run[j], v);
    LongerOfComparable(CommittedLog(run[i].nodes[v]), CommittedLog(run[j].nodes[v]));
    LongerOfComparable(run[i].nodes[v].applied, run[j].nodes[v].applied);
  }
}
