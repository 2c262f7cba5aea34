/**
 A whole cluster of RaftNode processes as a step system. A step is one handler call
 or timer callback of server/raft_node.cpp, or the part of one before or after the point
 where it gives the node's mutex up. While such a handler waits to go on, the node handles
 no other request.

 Messages that were sent stay available for ever, so they may be lost, delayed,
 reordered and delivered more than once; only a RequestVote call returns at most once,
 which the vote counter relies on. Timers may fire at any moment.

 The last four fields of Cluster are history: no step looks at them.
 */
module Clusters {
  import opened Commands
  import opened RaftTypes
  import opened Handlers

  /** Fixed membership, and the repairs that the nodes have: none in the code as written. */
  datatype Config = Config(members: set<Id>, leaderOnlyScan: bool, rechecksTerm: bool)

  predicate ValidConfig(cfg: Config) {
    cfg.members != {} && NO_VOTE !in cfg.members
  }

  function Self(cfg: Config, v: Id): Member {
    Member(v, cfg.members - {v}, cfg.leaderOnlyScan, cfg.rechecksTerm)
  }

  datatype TermId = TermId(term: nat, id: Id)

  /** One RequestVote call of an election. */
  datatype Call = Call(term: nat, candidate: Id, peer: Id)

  function CallOf(req: VoteReq): Call {
    Call(req.term, req.candidate, req.to)
  }

  /** A term that had a leader: who, its log's length when elected, its log as it grew,
      and the voters (itself included) it had counted. */
  datatype Reign = Reign(leader: Id, start: nat, log: Log, electors: set<Id>)

  /** An election: the candidate's log when it started, and the peers whose grant it counted. */
  datatype Ballot = Ballot(log: Log, counted: set<Id>)

  datatype Cluster = Cluster(
    nodes: map<Id, Node>,
    voteReqs: set<VoteReq>,
    voteReplies: set<VoteReply>,
    returned: set<Call>,
    parked: set<VoteReq>,               // handlers that gave the mutex up in becomeFollower
    appends: set<AppendReq>,
    appendReplies: set<AppendReply>,
    parkedAppends: set<Paused>,         // likewise, in onAppendEntries
    reigns: map<nat, Reign>,
    firstVote: map<TermId, Id>,         // the first vote of a node in a term
    ballots: map<TermId, Ballot>,
    acked: map<TermId, nat>)            // how much of a term's leader log a node stored during the term

  function Init(cfg: Config): Cluster {
    Cluster(map v | v in cfg.members :: INITIAL_NODE, {}, {}, {}, {}, {}, {}, {}, map[], map[], map[], map[])
  }

  function Acked(acked: map<TermId, nat>, t: nat, v: Id): nat {
    if TermId(t, v) in acked then acked[TermId(t, v)] else 0
  }

  // ----- Steps -----

  datatype Action =
    | Timeout(id: Id)
    | Heartbeats(id: Id)
    | Submit(id: Id, command: Command)
    | DeliverVote(vreq: VoteReq)
    | ResumeVote(vreq: VoteReq)
    | ReturnVote(vreply: VoteReply)
    | DeliverAppend(areq: AppendReq)
    | ReturnAppend(areply: AppendReply)
    | StepDown(areq: AppendReq)
    | ResumeAppend(paused: Paused)

  function Actor(a: Action): Id {
    match a
    case Timeout(id) => id
    case Heartbeats(id) => id
    case Submit(id, _) => id
    case DeliverVote(req) => req.to
    case ResumeVote(req) => req.to
    case ReturnVote(reply) => reply.req.candidate
    case DeliverAppend(req) => req.to
    case ReturnAppend(reply) => reply.req.leader
    case StepDown(req) => req.to
    case ResumeAppend(paused) => paused.req.to
  }

  /** A request handler of v has given the mutex up and is not finished. The server that
      takes v's requests runs one handler at a time (common/rpc.cpp:113-118), so till then v
      handles no other; its timers, clients and the replies to its own calls go on. */
  predicate Busy(s: Cluster, v: Id) {
    || (exists req :: req in s.parked && req.to == v)
    || (exists p :: p in s.parkedAppends && p.req.to == v)
  }

  /** What the environment offers: a timer, a client, or a message. */
  predicate Offered(s: Cluster, a: Action) {
    && Actor(a) in s.nodes
    && match a
       case Timeout(id) => s.nodes[id].role != Leader
       case Heartbeats(_) => true
       case Submit(_, _) => true
       case DeliverVote(req) => req in s.voteReqs && !Busy(s, req.to)
       case ResumeVote(req) => req in s.parked
       case ReturnVote(reply) => reply in s.voteReplies && CallOf(reply.req) !in s.returned
       case DeliverAppend(req) => req in s.appends && !Busy(s, req.to)
       case ReturnAppend(reply) => reply in s.appendReplies
       case StepDown(req) => req in s.appends && !Busy(s, req.to) && ReleasesLockToAppend(s.nodes[req.to], req)
       case ResumeAppend(paused) => paused in s.parkedAppends
  }

  /** Offered, and the handler will not read outside the log. That the second part always
      holds is proved in module InBounds. */
  predicate Enabled(s: Cluster, a: Action) {
    Offered(s, a) && InRange(s.nodes[Actor(a)])
  }

  /** History: the node has just become the leader of its term. */
  function Crown(s: Cluster, v: Id): Cluster
    requires v in s.nodes
  {
    var n := s.nodes[v];
    var key := TermId(n.currentTerm, v);
    var counted := if key in s.ballots then s.ballots[key].counted else {};
    s.(reigns := s.reigns[n.currentTerm := Reign(v, |n.log|, n.log, counted + {v})],
       acked := s.acked[key := |n.log|])
  }

  function TimeoutStep(cfg: Config, s: Cluster, v: Id): Cluster
    requires v in s.nodes && InRange(s.nodes[v])
  {
    var n := StartElection(Self(cfg, v), s.nodes[v]);
    var key := TermId(n.currentTerm, v);
    var started := s.(
      nodes := s.nodes[v := n],
      voteReqs := s.voteReqs + Canvass(Self(cfg, v), n),
      firstVote := s.firstVote[key := v],
      ballots := s.ballots[key := Ballot(n.log, {})]);
    if n.role == Leader then Crown(started, v) else started
  }

  function HeartbeatStep(cfg: Config, s: Cluster, v: Id): Cluster
    requires v in s.nodes && InRange(s.nodes[v])
  {
    s.(nodes := s.nodes[v := HeartbeatNode(Self(cfg, v), s.nodes[v])],
       appends := s.appends + Broadcast(Self(cfg, v), s.nodes[v]))
  }

  function SubmitStep(cfg: Config, s: Cluster, v: Id, command: Command): Cluster
    requires v in s.nodes && InRange(s.nodes[v])
  {
    var outcome := SubmitCommand(Self(cfg, v), s.nodes[v], command);
    var n := outcome.node;
    if !outcome.accepted then s
    else
      s.(nodes := s.nodes[v := n],
         appends := s.appends + Broadcast(Self(cfg, v), n),
         reigns := if n.currentTerm in s.reigns
                   then s.reigns[n.currentTerm := s.reigns[n.currentTerm].(log := n.log)] else s.reigns,
         acked := s.acked[TermId(n.currentTerm, v) := |n.log|])
  }

  /** The effect of a decided RequestVote handler. */
  function RecordVote(s: Cluster, outcome: VoteOutcome): Cluster
    requires outcome.reply.req.to in s.nodes
  {
    var v := outcome.reply.req.to;
    var key := TermId(outcome.node.currentTerm, v);
    s.(nodes := s.nodes[v := outcome.node],
       voteReplies := s.voteReplies + {outcome.reply},
       firstVote := if outcome.reply.granted && key !in s.firstVote
                    then s.firstVote[key := outcome.reply.req.candidate] else s.firstVote)
  }

  function DeliverVoteStep(s: Cluster, req: VoteReq): Cluster
    requires req.to in s.nodes
  {
    var n := s.nodes[req.to];
    if ReleasesLock(n, req)
    then s.(nodes := s.nodes[req.to := BecomeFollower(n, req.term)], parked := s.parked + {req})
    else RecordVote(s, OnRequestVote(n, req))
  }

  /** What the rest of onRequestVote does. */
  function Decided(s: Cluster, req: VoteReq): Cluster
    requires req.to in s.nodes
  {
    RecordVote(s, DecideVote(s.nodes[req.to], req))
  }

  function ResumeVoteStep(s: Cluster, req: VoteReq): Cluster
    requires req.to in s.nodes
  {
    Decided(s, req).(parked := s.parked - {req})
  }

  function ReturnVoteStep(cfg: Config, s: Cluster, reply: VoteReply): Cluster
    requires reply.req.candidate in s.nodes && InRange(s.nodes[reply.req.candidate])
  {
    var c := reply.req.candidate;
    var before := s.nodes[c];
    var n := OnVoteReply(Self(cfg, c), before, reply);
    var key := TermId(before.currentTerm, c);
    var heard := s.(
      nodes := s.nodes[c := n],
      returned := s.returned + {CallOf(reply.req)},
      ballots := if CountsVote(before, reply) && key in s.ballots
                 then s.ballots[key := s.ballots[key].(counted := s.ballots[key].counted + {reply.req.to})]
                 else s.ballots);
    if n.role == Leader && before.role != Leader
    then Crown(heard, c).(appends := heard.appends + Broadcast(Self(cfg, c), n))
    else heard
  }

  /** The effect of an AppendEntries handler that has run to its end. */
  function RecordAppend(s: Cluster, req: AppendReq, outcome: AppendOutcome): Cluster
    requires req.to in s.nodes
  {
    var v := req.to;
    var had := Acked(s.acked, req.term, v);
    s.(nodes := s.nodes[v := outcome.node],
       appendReplies := s.appendReplies + {outcome.reply},
       acked := if outcome.reply.success
                then s.acked[TermId(req.term, v) := if had <= req.End() then req.End() else had]
                else s.acked)
  }

  function DeliverAppendStep(cfg: Config, s: Cluster, req: AppendReq): Cluster
    requires req.to in s.nodes && InRange(s.nodes[req.to])
  {
    RecordAppend(s, req, OnAppendEntries(Self(cfg, req.to), s.nodes[req.to], req))
  }

  function ReturnAppendStep(cfg: Config, s: Cluster, reply: AppendReply): Cluster
    requires reply.req.leader in s.nodes && InRange(s.nodes[reply.req.leader])
  {
    var v := reply.req.leader;
    s.(nodes := s.nodes[v := OnAppendReply(Self(cfg, v), s.nodes[v], reply)])
  }

  /** The first half of onAppendEntries on a leader of an earlier term. */
  function StepDownStep(s: Cluster, req: AppendReq): Cluster
    requires req.to in s.nodes
  {
    var n := s.nodes[req.to];
    s.(nodes := s.nodes[req.to := BecomeFollower(n, req.term)],
       parkedAppends := s.parkedAppends + {Paused(req, n.currentTerm)})
  }

  /** What the second half does. */
  function Continued(cfg: Config, s: Cluster, paused: Paused): Cluster
    requires paused.req.to in s.nodes && InRange(s.nodes[paused.req.to])
  {
    RecordAppend(s, paused.req, ContinueAppend(Self(cfg, paused.req.to), s.nodes[paused.req.to], paused))
  }

  function ResumeAppendStep(cfg: Config, s: Cluster, paused: Paused): Cluster
    requires paused.req.to in s.nodes && InRange(s.nodes[paused.req.to])
  {
    Continued(cfg, s, paused).(parkedAppends := s.parkedAppends - {paused})
  }

  function Next(cfg: Config, s: Cluster, a: Action): Cluster
    requires Enabled(s, a)
  {
    match a
    case Timeout(id) => TimeoutStep(cfg, s, id)
    case Heartbeats(id) => HeartbeatStep(cfg, s, id)
    case Submit(id, command) => SubmitStep(cfg, s, id, command)
    case DeliverVote(req) => DeliverVoteStep(s, req)
    case ResumeVote(req) => ResumeVoteStep(s, req)
    case ReturnVote(reply) => ReturnVoteStep(cfg, s, reply)
    case DeliverAppend(req) => DeliverAppendStep(cfg, s, req)
    case ReturnAppend(reply) => ReturnAppendStep(cfg, s, reply)
    case StepDown(req) => StepDownStep(s, req)
    case ResumeAppend(paused) => ResumeAppendStep(cfg, s, paused)
  }

  ghost predicate Step(cfg: Config, s: Cluster, s': Cluster) {
    exists a :: Enabled(s, a) && s' == Next(cfg, s, a)
  }

  /** The waiting handler would go on although its node's term has moved on, and nothing
      in the code turns it down. */
  predicate Late(cfg: Config, s: Cluster, p: Paused)
    requires p.req.to in s.nodes
  {
    !cfg.rechecksTerm && s.nodes[p.req.to].currentTerm != p.req.term
  }

  predicate InTime(cfg: Config, s: Cluster, a: Action)
    requires Enabled(s, a)
  {
    a.ResumeAppend? ==> !Late(cfg, s, a.paused)
  }

  ghost predicate TimelyStep(cfg: Config, s: Cluster, s': Cluster) {
    exists a :: Enabled(s, a) && InTime(cfg, s, a) && s' == Next(cfg, s, a)
  }

  // ----- Runs -----

  ghost predicate StepAt(cfg: Config, run: seq<Cluster>, i: nat)
    requires i + 1 < |run|
  {
    Step(cfg, run[i], run[i + 1])
  }

  ghost predicate IsRun(cfg: Config, run: seq<Cluster>) {
    && run != []
    && run[0] == Init(cfg)
    && forall i: nat :: i + 1 < |run| ==> StepAt(cfg, run, i)
  }

  ghost predicate Reachable(cfg: Config, s: Cluster) {
    exists run :: IsRun(cfg, run) && run[|run| - 1] == s
  }

  ghost predicate TimelyStepAt(cfg: Config, run: seq<Cluster>, i: nat)
    requires i + 1 < |run|
  {
    TimelyStep(cfg, run[i], run[i + 1])
  }

  /** A run in which no handler goes on late. */
  ghost predicate IsTimelyRun(cfg: Config, run: seq<Cluster>) {
    && run != []
    && run[0] == Init(cfg)
    && forall i: nat :: i + 1 < |run| ==> TimelyStepAt(cfg, run, i)
  }

  ghost predicate TimelyReachable(cfg: Config, s: Cluster) {
    exists run :: IsTimelyRun(cfg, run) && run[|run| - 1] == s
  }

  lemma TimelyIsRun(cfg: Config, run: seq<Cluster>)
    requires IsTimelyRun(cfg, run)
    ensures IsRun(cfg, run)
  {
    forall i: nat | i + 1 < |run| ensures StepAt(cfg, run, i) {
      assert TimelyStepAt(cfg, run, i);
    }
  }

  lemma TimelyIsReachable(cfg: Config, s: Cluster)
    requires TimelyReachable(cfg, s)
    ensures Reachable(cfg, s)
  {
    var run :| IsTimelyRun(cfg, run) && run[|run| - 1] == s;
    TimelyIsRun(cfg, run);
  }

  lemma TimelyInit(cfg: Config)
    ensures TimelyReachable(cfg, Init(cfg))
  {
    var run := [Init(cfg)];
    assert IsTimelyRun(cfg, run) && run[|run| - 1] == Init(cfg);
  }

  /** The states that steps lead through from s to s'; no handler goes on late. */
  ghost predicate IsPath(cfg: Config, path: seq<Cluster>, s: Cluster, s': Cluster) {
    && path != [] && path[0] == s && path[|path| - 1] == s'
    && forall i: nat :: i + 1 < |path| ==> TimelyStepAt(cfg, path, i)
  }

  /** Steps lead from s to s'. */
  ghost predicate Reaches(cfg: Config, s: Cluster, s': Cluster) {
    exists path :: IsPath(cfg, path, s, s')
  }

  lemma ReachesSelf(cfg: Config, s: Cluster)
    ensures Reaches(cfg, s, s)
  {
    assert IsPath(cfg, [s], s, s);
  }

  lemma ReachesNext(cfg: Config, s: Cluster, a: Action)
    requires Enabled(s, a) && InTime(cfg, s, a)
    ensures Reaches(cfg, s, Next(cfg, s, a))
  {
    assert IsPath(cfg, [s, Next(cfg, s, a)], s, Next(cfg, s, a));
  }

  lemma PathsJoin(cfg: Config, p: seq<Cluster>, q: seq<Cluster>, a: Cluster, b: Cluster, c: Cluster)
    requires IsPath(cfg, p, a, b) && IsPath(cfg, q, b, c)
    ensures IsPath(cfg, p + q[1..], a, c)
  {
    var whole := p + q[1..];
    forall i: nat | i + 1 < |whole| ensures TimelyStepAt(cfg, whole, i) {
      if i + 1 < |p| {
        assert TimelyStepAt(cfg, p, i);
      } else {
        assert TimelyStepAt(cfg, q, i + 1 - |p|);
      }
    }
  }

  lemma ReachesOn(cfg: Config, a: Cluster, b: Cluster, c: Cluster)
    requires Reaches(cfg, a, b) && Reaches(cfg, b, c)
    ensures Reaches(cfg, a, c)
  {
    var p :| IsPath(cfg, p, a, b);
    var q :| IsPath(cfg, q, b, c);
    hide IsPath;
    PathsJoin(cfg, p, q, a, b, c);
  }

  lemma TimelyOn(cfg: Config, s: Cluster, s': Cluster)
    requires TimelyReachable(cfg, s) && Reaches(cfg, s, s')
    ensures TimelyReachable(cfg, s')
  {
    var run :| IsTimelyRun(cfg, run) && run[|run| - 1] == s;
    var path :| IsPath(cfg, path, s, s');
    PathsJoin(cfg, run, path, Init(cfg), s, s');
    assert IsTimelyRun(cfg, run + path[1..]);
  }

  lemma TimelyNext(cfg: Config, s: Cluster, a: Action)
    requires TimelyReachable(cfg, s) && Enabled(s, a) && InTime(cfg, s, a)
    ensures TimelyReachable(cfg, Next(cfg, s, a))
  {
    hide Next;
    ReachesNext(cfg, s, a);
    TimelyOn(cfg, s, Next(cfg, s, a));
  }

  lemma ReachableNext(cfg: Config, s: Cluster, a: Action)
    requires Reachable(cfg, s) && Enabled(s, a)
    ensures Reachable(cfg, Next(cfg, s, a))
  {
    var run :| IsRun(cfg, run) && run[|run| - 1] == s;
    var longer := run + [Next(cfg, s, a)];
    forall i: nat | i + 1 < |longer| ensures StepAt(cfg, longer, i) {
      if i + 1 < |run| {
        assert StepAt(cfg, run, i);
      }
    }
    assert IsRun(cfg, longer) && longer[|longer| - 1] == Next(cfg, s, a);
  }
}
