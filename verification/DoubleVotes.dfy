/**
 A node may vote for itself and later, in the same term, for the candidate that beat it: stepping
 down empties the vote even when the term stays. This happens in every cluster of three or more
 and in no smaller one.
 */
module DoubleVotes {
  import opened RaftTypes
  import opened LogMerge
  import opened Handlers
  import opened Clusters
  import opened Invariants
  import opened VoteSteps
  import opened VoteAnswers
  import opened AppendAnswers
  import opened VoteRuns
  import opened InBounds
  import opened ElectionResults
  import opened Actors
  import opened Scenario
  import opened Phases

  /** In the state, v is in term t and has voted for x. */
  ghost predicate VoteIs(s: Cluster, v: Id, t: nat, x: Id) {
    v in s.nodes && s.nodes[v].currentTerm == t && s.nodes[v].votedFor == x
  }

  /** v votes for two different nodes in term t. */
  ghost predicate VotesTwice(run: seq<Cluster>, i: nat, j: nat, v: Id, t: nat, x: Id, y: Id) {
    i <= j < |run| && VoteIs(run[i], v, t, x) && VoteIs(run[j], v, t, y) && x != y && x != NO_VOTE && y != NO_VOTE
  }

  // ----- In three or more -----

  /** The first heartbeat of a leader without a log reaches a candidate without one. */
  lemma HeartbeatFrees(me: Member, n: Node, m: AppendReq)
    requires InRange(n) && n.role == Candidate && m.term == n.currentTerm && n.log == []
    requires m.prevLogIndex == -1 && m.entries == []
    ensures var f := OnAppendEntries(me, n, m).node;
            f.role == Follower && f.currentTerm == n.currentTerm && f.votedFor == NO_VOTE && f.log == []
  {
    AppendVote(me, n, m);
    AppendAccepted(me, n, m);
    MergeNothing(n.log, 0);
    hide OnAppendEntries, Merge, MayCommit, AllApplied;
  }

  lemma FirstHeartbeat(cfg: Config, l: Node, b: Id, a: Id)
    requires l.currentTerm == 1 && l.log == [] && NextIndex(l, a) == 0
    ensures var m := MakeAppend(Self(cfg, b), l, a);
            m.term == 1 && m.to == a && m.prevLogIndex == -1 && m.entries == []
  {
  }

  /** a has started an election of term 1, and nothing else has happened. */
  lemma Contender(cfg: Config, a: Id) returns (s: Cluster)
    requires a in cfg.members && |cfg.members| >= 2
    ensures TimelyReachable(cfg, s) && s.nodes.Keys == cfg.members && s.nodes[a] == Campaigner(INITIAL_NODE, a)
    ensures forall v :: v in cfg.members - {a} ==> s.nodes[v] == INITIAL_NODE
    ensures s.parked == {} && s.parkedAppends == {} && s.returned == {}
  {
    AtLeastTwo(cfg, a);
    hide Reaches, TimelyReachable;
    s := StartOne(cfg, Init(cfg), a);
    TimelyInit(cfg);
    TimelyOn(cfg, Init(cfg), s);
  }

  lemma EnoughVoters(cfg: Config, a: Id, b: Id)
    requires a in cfg.members && b in cfg.members && a != b && |cfg.members| >= 3
    ensures 1 < Majority(Self(cfg, b)) <= 1 + |cfg.members - {a, b}|
  {
    SelfMajority(cfg, b);
    WithoutOne(cfg.members, a);
    WithoutOne(cfg.members - {a}, b);
    assert cfg.members - {a} - {b} == cfg.members - {a, b};
  }

  /** b has won term 1 without a, and its request for the vote and its heartbeat are under way. */
  lemma Won(cfg: Config, s: Cluster, a: Id, b: Id) returns (s': Cluster)
    requires s.nodes.Keys == cfg.members && a in cfg.members && b in cfg.members && a != b && |cfg.members| >= 3
    requires forall v :: v in cfg.members - {a} ==> s.nodes[v] == INITIAL_NODE
    requires s.parked == {} && s.parkedAppends == {} && s.returned == {}
    ensures Reaches(cfg, s, s') && a in s'.nodes && b in s'.nodes && s'.nodes[a] == s.nodes[a]
    ensures s'.nodes[b].currentTerm == 1 && s'.nodes[b].log == [] && NextIndex(s'.nodes[b], a) == 0
    ensures s'.parked == {} && s'.parkedAppends == {}
    ensures VoteReq(1, b, a, -1, 0) in s'.voteReqs && MakeAppend(Self(cfg, b), s'.nodes[b], a) in s'.appends
  {
    EnoughVoters(cfg, a, b);
    hide Reaches, MakeAppend, Majority;
    s' := Elect(cfg, s, b, cfg.members - {a, b});
    assert a in cfg.members - {b};
    assert Ask(Campaigner(s.nodes[b], b), b, a) == VoteReq(1, b, a, -1, 0);
  }

  /** a hears of it. */
  lemma Yielded(cfg: Config, s: Cluster, a: Id, b: Id) returns (s': Cluster)
    requires a in s.nodes && b in s.nodes && s.nodes[a] == Campaigner(INITIAL_NODE, a)
    requires s.nodes[b].currentTerm == 1 && s.nodes[b].log == [] && NextIndex(s.nodes[b], a) == 0
    requires s.parked == {} && s.parkedAppends == {}
    requires VoteReq(1, b, a, -1, 0) in s.voteReqs && MakeAppend(Self(cfg, b), s.nodes[b], a) in s.appends
    ensures Reaches(cfg, s, s') && a in s'.nodes && s'.parked == {} && s'.parkedAppends == {}
    ensures s'.nodes[a].role == Follower && s'.nodes[a].log == [] && VoteIs(s', a, 1, NO_VOTE)
    ensures VoteReq(1, b, a, -1, 0) in s'.voteReqs
  {
    var m := MakeAppend(Self(cfg, b), s.nodes[b], a);
    FirstHeartbeat(cfg, s.nodes[b], b, a);
    HeartbeatFrees(Self(cfg, a), s.nodes[a], m);
    hide Reaches, MakeAppend, OnAppendEntries;
    s' := DeliverOne(cfg, s, m);
  }

  /** And then b's own vote request of that term reaches a. */
  lemma Converted(cfg: Config, s: Cluster, a: Id, b: Id) returns (s': Cluster)
    requires a in s.nodes && s.parked == {} && s.parkedAppends == {} && b != NO_VOTE
    requires s.nodes[a].role == Follower && s.nodes[a].log == [] && VoteIs(s, a, 1, NO_VOTE) && InRange(s.nodes[a])
    requires VoteReq(1, b, a, -1, 0) in s.voteReqs
    ensures Reaches(cfg, s, s') && VoteIs(s', a, 1, b)
  {
    var req := VoteReq(1, b, a, -1, 0);
    VoteGranted(s.nodes[a], req, []);
    hide OnRequestVote, Reaches;
    s' := Next(cfg, s, DeliverVote(req));
    NextNodes(cfg, s, DeliverVote(req));
    ReachesNext(cfg, s, DeliverVote(req));
  }

  lemma TwiceInThree(cfg: Config, a: Id, b: Id) returns (run: seq<Cluster>, i: nat)
    requires ValidConfig(cfg) && a in cfg.members && b in cfg.members && a != b && |cfg.members| >= 3
    ensures IsTimelyRun(cfg, run) && VotesTwice(run, i, |run| - 1, a, 1, a, b)
  {
    hide Reaches;
    var s := Contender(cfg, a);
    var won := Won(cfg, s, a, b);
    var mid := Yielded(cfg, won, a, b);
    ReachesOn(cfg, s, won, mid);
    TimelyOn(cfg, s, mid);
    TimelyIsReachable(cfg, mid);
    ReachableSettled(cfg, mid, a);
    hide Reachable, TimelyReachable;
    var s' := Converted(cfg, mid, a, b);
    ReachesOn(cfg, s, mid, s');
    run, i := RunThrough(cfg, s, s');
  }

  /** A run to s' that comes by s. */
  lemma RunThrough(cfg: Config, s: Cluster, s': Cluster) returns (run: seq<Cluster>, i: nat)
    requires TimelyReachable(cfg, s) && Reaches(cfg, s, s')
    ensures IsTimelyRun(cfg, run) && i < |run| && run[i] == s && run[|run| - 1] == s'
  {
    var before :| IsTimelyRun(cfg, before) && before[|before| - 1] == s;
    var path :| IsPath(cfg, path, s, s');
    PathsJoin(cfg, before, path, Init(cfg), s, s');
    run, i := before + path[1..], |before| - 1;
  }

  // ----- In one or two -----

  /** v's own vote stays while its term does: the leader of the term would need it. */
  lemma OwnVoteStays(cfg: Config, s: Cluster, s': Cluster, v: Id)
    requires ValidConfig(cfg) && |cfg.members| <= 2 && Reachable(cfg, s) && Step(cfg, s, s')
    requires v in s.nodes && v in s'.nodes && VoteIs(s, v, s'.nodes[v].currentTerm, v)
    ensures VoteIs(s', v, s.nodes[v].currentTerm, v)
  {
    ReachableVoting(cfg, s);
    hide Next, Reachable, Voting, Enabled;
    MemberNamed(cfg, s, v);
    var a :| Enabled(s, a) && s' == Next(cfg, s, a);
    VoteTransition(cfg, s, a, v);
    if s'.nodes[v].votedFor != v {
      WholeElectorate(cfg, s, v);
      assert false;
    }
  }

  /** With two members a leader has both votes. */
  lemma WholeElectorate(cfg: Config, s: Cluster, v: Id)
    requires Voting(cfg, s) && |cfg.members| <= 2 && v in s.nodes && s.nodes[v].votedFor == v
    ensures s.nodes[v].currentTerm in s.reigns ==> s.reigns[s.nodes[v].currentTerm].leader == v
  {
    assert Casts(s, v);
    if s.nodes[v].currentTerm in s.reigns {
      assert ReignVote(cfg, s, s.nodes[v].currentTerm);
      WholeQuorum(cfg, s.reigns[s.nodes[v].currentTerm].electors);
    }
  }

  lemma {:induction false} OwnVoteLasts(cfg: Config, run: seq<Cluster>, i: nat, j: nat, v: Id, t: nat)
    requires ValidConfig(cfg) && |cfg.members| <= 2 && IsRun(cfg, run) && i <= j < |run|
    requires VoteIs(run[i], v, t, v) && v != NO_VOTE && v in run[j].nodes && run[j].nodes[v].currentTerm == t
    ensures VoteIs(run[j], v, t, v)
    decreases j
  {
    hide Step, Reachable;
    if i < j {
      RunMovesOn(cfg, run, i, j - 1, v);
      PrefixReachable(cfg, run, j - 1);
      RunStep(cfg, run, j - 1);
      StepMovesOn(cfg, run[j - 1], run[j], v);
      OwnVoteLasts(cfg, run, i, j - 1, v, t);
      OwnVoteStays(cfg, run[j - 1], run[j], v);
    }
  }

  lemma OnceInTwo(cfg: Config, run: seq<Cluster>, i: nat, j: nat, v: Id, t: nat, x: Id, y: Id)
    requires ValidConfig(cfg) && |cfg.members| <= 2 && IsRun(cfg, run)
    ensures !VotesTwice(run, i, j, v, t, x, y)
  {
    if VotesTwice(run, i, j, v, t, x, y) {
      hide IsRun, Voting;
      RunVoting(cfg, run, i);
      MemberNamed(cfg, run[i], v);
      VoteHistory(cfg, run, i, j, v);
      OwnVoteLasts(cfg, run, i, j, v, t);
      assert false;
    }
  }

  // ----- Exactly when -----

  lemma TwoOf(members: set<Id>) returns (a: Id, b: Id)
    requires |members| >= 2
    ensures a in members && b in members && a != b
  {
    a :| a in members;
    WithoutOne(members, a);
    b :| b in members - {a};
  }

  /** Some run has a node vote for two different nodes in one term exactly if the cluster has
      three members or more. */
  lemma TwoVotesExactlyWhen(cfg: Config)
    requires ValidConfig(cfg)
    ensures (exists run, i: nat, j: nat, v, t: nat, x, y :: IsRun(cfg, run) && VotesTwice(run, i, j, v, t, x, y))
            <==> |cfg.members| >= 3
  {
    hide IsRun, VotesTwice, IsTimelyRun;
    if |cfg.members| >= 3 {
      var a, b := TwoOf(cfg.members);
      var run, i := TwiceInThree(cfg, a, b);
      TimelyIsRun(cfg, run);
    } else {
      forall run, i: nat, j: nat, v, t: nat, x, y | IsRun(cfg, run) ensures !VotesTwice(run, i, j, v, t, x, y) {
        OnceInTwo(cfg, run, i, j, v, t, x, y);
      }
    }
  }
}
