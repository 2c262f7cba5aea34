/**
 Pieces of runs: an election won by a given set of voters, and a leader replicating to a
 given set of followers. Each leads from any state that fits to another (`Reaches`), and in
 none of them does a handler go on late.
 */
module Scenario {
  import opened Commands
  import opened RaftTypes
  import opened Handlers
  import opened Clusters
  import opened AppendAnswers
  import opened CommitSteps
  import opened Actors

  /** No node but those of vs changes, and the same handlers wait for the mutex. */
  ghost predicate SameExcept(s: Cluster, s': Cluster, vs: set<Id>) {
    && s'.nodes.Keys == s.nodes.Keys && s'.parked == s.parked && s'.parkedAppends == s.parkedAppends
    && forall q :: q in s.nodes && q !in vs ==> s'.nodes[q] == s.nodes[q]
  }

  /** None of vs has an unfinished handler. */
  ghost predicate Free(s: Cluster, vs: set<Id>) {
    forall v :: v in vs ==> !Busy(s, v)
  }

  lemma StillFree(s: Cluster, s': Cluster, ws: set<Id>, vs: set<Id>)
    requires SameExcept(s, s', ws) && Free(s, vs)
    ensures Free(s', vs)
  {
  }

  ghost predicate KeepsMessages(s: Cluster, s': Cluster) {
    s.voteReqs <= s'.voteReqs && s.voteReplies <= s'.voteReplies
    && s.appends <= s'.appends && s.appendReplies <= s'.appendReplies
  }

  /** No call of an election of term t or later has returned. */
  ghost predicate ReturnedBefore(s: Cluster, t: nat) {
    forall call :: call in s.returned ==> call.term < t
  }

  // ----- An election -----

  function Ask(n: Node, c: Id, v: Id): VoteReq {
    VoteReq(n.currentTerm, c, v, |n.log| - 1, LastTerm(n.log))
  }

  function Voted(n: Node, t: nat, c: Id): Node {
    n.(role := Follower, currentTerm := t, votedFor := c)
  }

  /** v has not reached the candidate's term and its log is no better. */
  ghost predicate WillVote(n: Node, candidate: Node) {
    && n.role != Leader && InRange(n) && n.currentTerm < candidate.currentTerm
    && UpToDate(|candidate.log| - 1, LastTerm(candidate.log), n.log)
  }

  ghost predicate Running(s: Cluster, c: Id, vs: set<Id>) {
    && c in s.nodes && c !in vs && vs <= s.nodes.Keys && Free(s, vs)
    && forall v :: v in vs ==> Ask(s.nodes[c], c, v) in s.voteReqs
  }

  lemma GrantOne(cfg: Config, s: Cluster, c: Id, v: Id) returns (s': Cluster)
    requires Running(s, c, {v}) && WillVote(s.nodes[v], s.nodes[c])
    ensures Reaches(cfg, s, s') && SameExcept(s, s', {v}) && KeepsMessages(s, s') && s'.returned == s.returned
    ensures Support(s, s', s.nodes[c], c, {v})
  {
    var a := DeliverVote(Ask(s.nodes[c], c, v));
    s' := Next(cfg, s, a);
    ReachesNext(cfg, s, a);
    NextNodes(cfg, s, a);
  }

  lemma RunsWith(s: Cluster, c: Id, vs: set<Id>, v: Id)
    requires Running(s, c, vs) && v in vs
    ensures Running(s, c, {v}) && c in s.nodes && c != v && vs <= s.nodes.Keys && c !in vs
  {
  }

  /** Each of vs has voted for the candidate n, and says so. */
  ghost predicate Support(s: Cluster, s': Cluster, n: Node, c: Id, vs: set<Id>) {
    forall v :: v in vs ==>
      && v in s.nodes && v in s'.nodes && s'.nodes[v] == Voted(s.nodes[v], n.currentTerm, c)
      && VoteReply(Ask(n, c, v), n.currentTerm, true) in s'.voteReplies
  }

  /** One vote is in: the others still have theirs. */
  lemma OthersWill(s: Cluster, mid: Cluster, c: Id, vs: set<Id>, v: Id)
    requires Running(s, c, vs) && v in vs && SameExcept(s, mid, {v}) && KeepsMessages(s, mid)
    requires forall q :: q in vs ==> WillVote(s.nodes[q], s.nodes[c])
    ensures Running(mid, c, vs - {v}) && mid.nodes[c] == s.nodes[c]
    ensures forall q :: q in vs - {v} ==> WillVote(mid.nodes[q], mid.nodes[c])
  {
    StillFree(s, mid, {v}, vs);
    hide WillVote, Busy;
  }

  lemma SupportGrows(s: Cluster, mid: Cluster, s': Cluster, n: Node, c: Id, vs: set<Id>, v: Id)
    requires v in vs && Support(s, mid, n, c, {v}) && Support(mid, s', n, c, vs - {v})
    requires SameExcept(s, mid, {v}) && KeepsMessages(s, mid)
    requires SameExcept(mid, s', vs - {v}) && KeepsMessages(mid, s')
    ensures Support(s, s', n, c, vs) && SameExcept(s, s', vs) && KeepsMessages(s, s')
  {
    hide Voted, Ask;
  }

  /** All of vs grant the candidate their votes. */
  lemma {:induction false} GrantAll(cfg: Config, s: Cluster, c: Id, vs: set<Id>) returns (s': Cluster)
    requires Running(s, c, vs)
    requires forall v :: v in vs ==> WillVote(s.nodes[v], s.nodes[c])
    ensures Reaches(cfg, s, s') && SameExcept(s, s', vs) && KeepsMessages(s, s') && s'.returned == s.returned
    ensures Support(s, s', s.nodes[c], c, vs)
    decreases vs
  {
    if vs == {} {
      s' := s;
      ReachesSelf(cfg, s);
    } else {
      var v :| v in vs;
      RunsWith(s, c, vs, v);
      hide Reaches, WillVote, Running, SameExcept, KeepsMessages, Support;
      var mid := GrantOne(cfg, s, c, v);
      OthersWill(s, mid, c, vs, v);
      s' := GrantAll(cfg, mid, c, vs - {v});
      ReachesOn(cfg, s, mid, s');
      SupportGrows(s, mid, s', s.nodes[c], c, vs, v);
    }
  }

  /** The record of a node that has just won, given the record n of the candidate. */
  ghost predicate Crowned(cfg: Config, c: Id, n: Node, l: Node) {
    && l.role == Leader && l.currentTerm == n.currentTerm && l.log == n.log
    && l.commitIndex == n.commitIndex && l.lastApplied == n.lastApplied && l.applied == n.applied
    && (forall q :: q in cfg.members - {c} ==> q in l.nextIndex && l.nextIndex[q] == |n.log|)
    && (forall q :: q in cfg.members - {c} ==> q in l.matchIndex && l.matchIndex[q] == -1)
  }

  lemma WinRecord(cfg: Config, c: Id, n: Node, reply: VoteReply)
    requires InRange(n) && CountsVote(n, reply) && !n.won && cfg.members - {c} != {}
    ensures var l := OnVoteReply(Self(cfg, c), n, reply);
            if n.votes + 1 >= Majority(Self(cfg, c)) then Crowned(cfg, c, n, l) else l == n.(votes := n.votes + 1)
  {
  }

  lemma TallyOne(cfg: Config, s: Cluster, c: Id, v: Id) returns (s': Cluster)
    requires c in s.nodes && InRange(s.nodes[c]) && cfg.members - {c} != {}
    requires s.nodes[c].role == Candidate && !s.nodes[c].won
    requires VoteReply(Ask(s.nodes[c], c, v), s.nodes[c].currentTerm, true) in s.voteReplies
    requires Call(s.nodes[c].currentTerm, c, v) !in s.returned
    ensures Reaches(cfg, s, s') && SameExcept(s, s', {c}) && KeepsMessages(s, s') && c in s'.nodes
    ensures s'.returned == s.returned + {Call(s.nodes[c].currentTerm, c, v)}
    ensures if s.nodes[c].votes + 1 >= Majority(Self(cfg, c))
            then && Crowned(cfg, c, s.nodes[c], s'.nodes[c])
                 && forall q :: q in cfg.members - {c} ==> MakeAppend(Self(cfg, c), s'.nodes[c], q) in s'.appends
            else s'.nodes[c] == s.nodes[c].(votes := s.nodes[c].votes + 1)
  {
    var reply := VoteReply(Ask(s.nodes[c], c, v), s.nodes[c].currentTerm, true);
    var a := ReturnVote(reply);
    s' := Next(cfg, s, a);
    ReachesNext(cfg, s, a);
    NextNodes(cfg, s, a);
    WinRecord(cfg, c, s.nodes[c], reply);
  }

  /** The grants of vs are under way, and none has been counted. */
  ghost predicate Uncounted(s: Cluster, n: Node, c: Id, vs: set<Id>) {
    forall v :: v in vs ==>
      && VoteReply(Ask(n, c, v), n.currentTerm, true) in s.voteReplies
      && Call(n.currentTerm, c, v) !in s.returned
  }

  lemma StillUncounted(s: Cluster, mid: Cluster, n: Node, c: Id, vs: set<Id>, v: Id)
    requires v in vs && Uncounted(s, n, c, vs) && KeepsMessages(s, mid)
    requires mid.returned == s.returned + {Call(n.currentTerm, c, v)} && ReturnedBefore(s, n.currentTerm + 1)
    ensures Uncounted(mid, n, c, vs - {v}) && ReturnedBefore(mid, n.currentTerm + 1)
  {
  }

  lemma OneUncounted(s: Cluster, n: Node, c: Id, vs: set<Id>, v: Id)
    requires v in vs && Uncounted(s, n, c, vs)
    ensures VoteReply(Ask(n, c, v), n.currentTerm, true) in s.voteReplies && Call(n.currentTerm, c, v) !in s.returned
  {
  }

  lemma KeepsTwice(a: Cluster, b: Cluster, c: Cluster, vs: set<Id>, ws: set<Id>)
    requires SameExcept(a, b, vs) && KeepsMessages(a, b) && SameExcept(b, c, ws) && KeepsMessages(b, c)
    ensures SameExcept(a, c, vs + ws) && KeepsMessages(a, c)
  {
  }

  /** One more vote matters neither to the apply loop nor to what the winner's record is. */
  lemma StillCandidate(n: Node)
    requires InRange(n)
    ensures InRange(n.(votes := n.votes + 1))
  {
  }

  lemma CrownedLater(cfg: Config, c: Id, n: Node, l: Node)
    requires Crowned(cfg, c, n.(votes := n.votes + 1), l)
    ensures Crowned(cfg, c, n, l)
  {
  }

  lemma SameAsk(n: Node, votes: nat, c: Id, vs: set<Id>, s: Cluster)
    requires Uncounted(s, n, c, vs)
    ensures Uncounted(s, n.(votes := votes), c, vs)
  {
  }

  /** The candidate counts votes of vs until it has won. */
  lemma {:induction false} Tally(cfg: Config, s: Cluster, c: Id, vs: set<Id>) returns (s': Cluster)
    requires c in s.nodes && InRange(s.nodes[c]) && cfg.members - {c} != {}
    requires s.nodes[c].role == Candidate && !s.nodes[c].won
    requires s.nodes[c].votes < Majority(Self(cfg, c)) <= s.nodes[c].votes + |vs|
    requires Uncounted(s, s.nodes[c], c, vs) && ReturnedBefore(s, s.nodes[c].currentTerm + 1)
    ensures Reaches(cfg, s, s') && SameExcept(s, s', {c}) && KeepsMessages(s, s') && c in s'.nodes
    ensures ReturnedBefore(s', s.nodes[c].currentTerm + 1)
    ensures Crowned(cfg, c, s.nodes[c], s'.nodes[c])
    ensures forall q :: q in cfg.members - {c} ==> MakeAppend(Self(cfg, c), s'.nodes[c], q) in s'.appends
    decreases vs
  {
    hide *;
    var v :| v in vs;
    OneUncounted(s, s.nodes[c], c, vs, v);
    var mid := TallyOne(cfg, s, c, v);
    StillUncounted(s, mid, s.nodes[c], c, vs, v);
    if s.nodes[c].votes + 1 >= Majority(Self(cfg, c)) {
      s' := mid;
    } else {
      StillCandidate(s.nodes[c]);
      SameAsk(s.nodes[c], s.nodes[c].votes + 1, c, vs - {v}, mid);
      s' := Tally(cfg, mid, c, vs - {v});
      ReachesOn(cfg, s, mid, s');
      CrownedLater(cfg, c, s.nodes[c], s'.nodes[c]);
      KeepsTwice(s, mid, s', {c}, {c});
      assert {c} + {c} == {c};
    }
  }

  function Campaigner(n: Node, c: Id): Node {
    n.(role := Candidate, currentTerm := n.currentTerm + 1, votedFor := c, votes := 1, won := false)
  }

  lemma StartOne(cfg: Config, s: Cluster, c: Id) returns (s': Cluster)
    requires c in s.nodes && s.nodes[c].role != Leader && InRange(s.nodes[c])
    requires Majority(Self(cfg, c)) > 1
    ensures Reaches(cfg, s, s') && SameExcept(s, s', {c}) && KeepsMessages(s, s') && s'.returned == s.returned
    ensures s'.nodes[c] == Campaigner(s.nodes[c], c)
    ensures forall q :: q in cfg.members - {c} ==> Ask(s'.nodes[c], c, q) in s'.voteReqs
  {
    var a := Timeout(c);
    s' := Next(cfg, s, a);
    ReachesNext(cfg, s, a);
    NextNodes(cfg, s, a);
  }

  /** Each of vs has voted for the candidate n. */
  ghost predicate Backed(s: Cluster, s': Cluster, n: Node, c: Id, vs: set<Id>) {
    forall v :: v in vs ==> v in s.nodes && v in s'.nodes && s'.nodes[v] == Voted(s.nodes[v], n.currentTerm, c)
  }

  /** A candidate whose election has just started is elected by vs. */
  lemma Carry(cfg: Config, s: Cluster, c: Id, vs: set<Id>) returns (s': Cluster)
    requires Running(s, c, vs) && cfg.members - {c} != {} && InRange(s.nodes[c])
    requires s.nodes[c].role == Candidate && !s.nodes[c].won && s.nodes[c].votes == 1
    requires 1 < Majority(Self(cfg, c)) <= 1 + |vs|
    requires forall v :: v in vs ==> WillVote(s.nodes[v], s.nodes[c])
    requires ReturnedBefore(s, s.nodes[c].currentTerm)
    ensures Reaches(cfg, s, s') && SameExcept(s, s', vs + {c}) && KeepsMessages(s, s') && c in s'.nodes
    ensures ReturnedBefore(s', s.nodes[c].currentTerm + 1)
    ensures Crowned(cfg, c, s.nodes[c], s'.nodes[c])
    ensures Backed(s, s', s.nodes[c], c, vs)
    ensures forall q :: q in cfg.members - {c} ==> MakeAppend(Self(cfg, c), s'.nodes[c], q) in s'.appends
  {
    hide Reaches, WillVote, MakeAppend, UpToDate, Crowned, Voted, Majority, InRange;
    var granted := GrantAll(cfg, s, c, vs);
    assert Uncounted(granted, s.nodes[c], c, vs) && ReturnedBefore(granted, s.nodes[c].currentTerm + 1);
    s' := Tally(cfg, granted, c, vs);
    hide Uncounted, ReturnedBefore;
    ReachesOn(cfg, s, granted, s');
    KeepsTwice(s, granted, s', vs, {c});
  }

  /** Once the candidate has asked, its voters are ready. */
  lemma VotersWill(s: Cluster, started: Cluster, c: Id, vs: set<Id>)
    requires c in s.nodes && c !in vs && vs <= s.nodes.Keys && SameExcept(s, started, {c}) && Free(s, vs)
    requires started.nodes[c] == Campaigner(s.nodes[c], c)
    requires forall v :: v in vs ==> Ask(started.nodes[c], c, v) in started.voteReqs
    requires forall v :: v in vs ==> WillVote(s.nodes[v], Campaigner(s.nodes[c], c))
    ensures Running(started, c, vs)
    ensures forall v :: v in vs ==> WillVote(started.nodes[v], started.nodes[c])
  {
    StillFree(s, started, {c}, vs);
    hide WillVote, Campaigner, Ask, Busy;
  }

  lemma BackedSince(s: Cluster, started: Cluster, s': Cluster, n: Node, c: Id, vs: set<Id>)
    requires c !in vs && SameExcept(s, started, {c}) && Backed(started, s', n, c, vs)
    ensures Backed(s, s', n, c, vs)
  {
    hide Voted;
  }

  /** c times out and is elected by vs. */
  lemma Elect(cfg: Config, s: Cluster, c: Id, vs: set<Id>) returns (s': Cluster)
    requires s.nodes.Keys == cfg.members && c in cfg.members && vs <= cfg.members - {c}
    requires s.nodes[c].role != Leader && InRange(s.nodes[c]) && Free(s, vs)
    requires 1 < Majority(Self(cfg, c)) <= 1 + |vs|
    requires forall v :: v in vs ==> WillVote(s.nodes[v], Campaigner(s.nodes[c], c))
    requires ReturnedBefore(s, s.nodes[c].currentTerm + 1)
    ensures Reaches(cfg, s, s') && SameExcept(s, s', vs + {c}) && KeepsMessages(s, s')
    ensures ReturnedBefore(s', s.nodes[c].currentTerm + 2)
    ensures Crowned(cfg, c, Campaigner(s.nodes[c], c), s'.nodes[c])
    ensures Backed(s, s', Campaigner(s.nodes[c], c), c, vs)
    ensures forall q :: q in cfg.members - {c} ==>
              && MakeAppend(Self(cfg, c), s'.nodes[c], q) in s'.appends
              && Ask(Campaigner(s.nodes[c], c), c, q) in s'.voteReqs
  {
    hide Reaches, WillVote, MakeAppend, Crowned, Majority, Running, Backed, SameExcept, Ask, Free;
    var started := StartOne(cfg, s, c);
    VotersWill(s, started, c, vs);
    assert vs != {};
    s' := Carry(cfg, started, c, vs);
    BackedSince(s, started, s', Campaigner(s.nodes[c], c), c, vs);
    ReachesOn(cfg, s, started, s');
    KeepsTwice(s, started, s', {c}, vs + {c});
    assert {c} + (vs + {c}) == vs + {c};
  }

  /** A leader of an earlier term that handles a vote request. */
  function Deposed(n: Node, req: VoteReq): Node {
    DecideVote(BecomeFollower(n, req.term), req).node
  }

  /** The handler of a leader's vote request gives the mutex up. */
  lemma BeginDepose(cfg: Config, s: Cluster, req: VoteReq) returns (mid: Cluster)
    requires req in s.voteReqs && req.to in s.nodes && InRange(s.nodes[req.to])
    requires s.nodes[req.to].role == Leader && req.term > s.nodes[req.to].currentTerm && !Busy(s, req.to)
    ensures Reaches(cfg, s, mid) && KeepsMessages(s, mid) && mid.returned == s.returned
    ensures mid.nodes == s.nodes[req.to := BecomeFollower(s.nodes[req.to], req.term)]
    ensures mid.parked == s.parked + {req} && mid.parkedAppends == s.parkedAppends && req !in s.parked
  {
    var a := DeliverVote(req);
    mid := Next(cfg, s, a);
    ReachesNext(cfg, s, a);
    hide Reaches;
  }

  /** And goes on when it has the mutex again. */
  lemma EndDepose(cfg: Config, mid: Cluster, req: VoteReq) returns (s': Cluster)
    requires req in mid.parked && req.to in mid.nodes && InRange(mid.nodes[req.to])
    ensures Reaches(cfg, mid, s') && KeepsMessages(mid, s') && s'.returned == mid.returned
    ensures s'.nodes == mid.nodes[req.to := DecideVote(mid.nodes[req.to], req).node]
    ensures s'.parked == mid.parked - {req} && s'.parkedAppends == mid.parkedAppends
  {
    var a := ResumeVote(req);
    s' := Next(cfg, mid, a);
    ReachesNext(cfg, mid, a);
    NextNodes(cfg, mid, a);
    hide Reaches;
  }

  /** The leader of an earlier term hears of the new one by a vote request. */
  lemma Depose(cfg: Config, s: Cluster, req: VoteReq) returns (s': Cluster)
    requires req in s.voteReqs && req.to in s.nodes && InRange(s.nodes[req.to])
    requires s.nodes[req.to].role == Leader && req.term > s.nodes[req.to].currentTerm && !Busy(s, req.to)
    ensures Reaches(cfg, s, s') && SameExcept(s, s', {req.to}) && KeepsMessages(s, s') && s'.returned == s.returned
    ensures s'.nodes[req.to] == Deposed(s.nodes[req.to], req)
  {
    hide Reaches, Next, DecideVote;
    var mid := BeginDepose(cfg, s, req);
    s' := EndDepose(cfg, mid, req);
    ReachesOn(cfg, s, mid, s');
    assert s.parked + {req} - {req} == s.parked;
  }

  // ----- Replication -----

  lemma WriteIs(cfg: Config, s: Cluster, l: Id, command: Command)
    requires l in s.nodes && InRange(s.nodes[l]) && s.nodes[l].role == Leader && cfg.members - {l} != {}
    ensures Enabled(s, Submit(l, command)) && InTime(cfg, s, Submit(l, command))
    ensures var s' := Next(cfg, s, Submit(l, command));
            && SameExcept(s, s', {l}) && KeepsMessages(s, s') && s'.returned == s.returned
            && s'.nodes[l] == s.nodes[l].(log := s.nodes[l].log + [Entry(s.nodes[l].currentTerm, command)])
            && forall q :: q in cfg.members - {l} ==> MakeAppend(Self(cfg, l), s'.nodes[l], q) in s'.appends
  {
    NextNodes(cfg, s, Submit(l, command));
  }

  /** The leader appends an entry and sends what each peer is missing. */
  lemma Write(cfg: Config, s: Cluster, l: Id, command: Command) returns (s': Cluster)
    requires l in s.nodes && InRange(s.nodes[l]) && s.nodes[l].role == Leader
    requires cfg.members - {l} != {}
    ensures Reaches(cfg, s, s') && SameExcept(s, s', {l}) && KeepsMessages(s, s') && s'.returned == s.returned
    ensures s'.nodes[l] == s.nodes[l].(log := s.nodes[l].log + [Entry(s.nodes[l].currentTerm, command)])
    ensures forall q :: q in cfg.members - {l} ==> MakeAppend(Self(cfg, l), s'.nodes[l], q) in s'.appends
  {
    hide Next, Reaches, MakeAppend;
    WriteIs(cfg, s, l, command);
    s' := Next(cfg, s, Submit(l, command));
    ReachesNext(cfg, s, Submit(l, command));
  }

  lemma BeatIs(cfg: Config, s: Cluster, l: Id)
    requires l in s.nodes && InRange(s.nodes[l]) && s.nodes[l].role == Leader && cfg.members - {l} != {}
    ensures Enabled(s, Heartbeats(l)) && InTime(cfg, s, Heartbeats(l))
    ensures var s' := Next(cfg, s, Heartbeats(l));
            && SameExcept(s, s', {}) && KeepsMessages(s, s') && s'.returned == s.returned
            && forall q :: q in cfg.members - {l} ==> MakeAppend(Self(cfg, l), s'.nodes[l], q) in s'.appends
  {
    NextNodes(cfg, s, Heartbeats(l));
  }

  lemma Beat(cfg: Config, s: Cluster, l: Id) returns (s': Cluster)
    requires l in s.nodes && InRange(s.nodes[l]) && s.nodes[l].role == Leader
    requires cfg.members - {l} != {}
    ensures Reaches(cfg, s, s') && SameExcept(s, s', {}) && KeepsMessages(s, s') && s'.returned == s.returned
    ensures l in s'.nodes
    ensures forall q :: q in cfg.members - {l} ==> MakeAppend(Self(cfg, l), s'.nodes[l], q) in s'.appends
  {
    hide Next, Reaches, MakeAppend;
    BeatIs(cfg, s, l);
    s' := Next(cfg, s, Heartbeats(l));
    ReachesNext(cfg, s, Heartbeats(l));
  }

  function To(m: AppendReq, v: Id): AppendReq {
    m.(to := v)
  }

  function Handled(cfg: Config, n: Node, m: AppendReq): AppendOutcome
    requires InRange(n)
  {
    OnAppendEntries(Self(cfg, m.to), n, m)
  }

  lemma DeliverIs(cfg: Config, s: Cluster, m: AppendReq)
    requires m in s.appends && m.to in s.nodes && InRange(s.nodes[m.to]) && !Busy(s, m.to)
    ensures Enabled(s, DeliverAppend(m)) && InTime(cfg, s, DeliverAppend(m))
    ensures var s' := Next(cfg, s, DeliverAppend(m));
            && SameExcept(s, s', {m.to}) && KeepsMessages(s, s') && s'.returned == s.returned
            && s'.nodes[m.to] == Handled(cfg, s.nodes[m.to], m).node
            && Handled(cfg, s.nodes[m.to], m).reply in s'.appendReplies
  {
    NextNodes(cfg, s, DeliverAppend(m));
    hide OnAppendEntries;
  }

  lemma DeliverOne(cfg: Config, s: Cluster, m: AppendReq) returns (s': Cluster)
    requires m in s.appends && m.to in s.nodes && InRange(s.nodes[m.to])
    requires !Busy(s, m.to)
    ensures Reaches(cfg, s, s') && SameExcept(s, s', {m.to}) && KeepsMessages(s, s') && s'.returned == s.returned
    ensures m.to in s'.nodes && s'.nodes[m.to] == Handled(cfg, s.nodes[m.to], m).node
    ensures Handled(cfg, s.nodes[m.to], m).reply in s'.appendReplies
  {
    hide Next, Reaches, Handled;
    DeliverIs(cfg, s, m);
    s' := Next(cfg, s, DeliverAppend(m));
    ReachesNext(cfg, s, DeliverAppend(m));
  }

  /** Each of vs has handled the request. */
  ghost predicate AllHandled(cfg: Config, s: Cluster, s': Cluster, m: AppendReq, vs: set<Id>) {
    forall v :: v in vs ==>
      && v in s.nodes && v in s'.nodes && InRange(s.nodes[v])
      && s'.nodes[v] == Handled(cfg, s.nodes[v], To(m, v)).node
      && Handled(cfg, s.nodes[v], To(m, v)).reply in s'.appendReplies
  }

  lemma HandledGrows(cfg: Config, s: Cluster, mid: Cluster, s': Cluster, m: AppendReq, vs: set<Id>, v: Id)
    requires v in vs && AllHandled(cfg, s, mid, m, {v}) && AllHandled(cfg, mid, s', m, vs - {v})
    requires SameExcept(s, mid, {v}) && KeepsMessages(s, mid)
    requires SameExcept(mid, s', vs - {v}) && KeepsMessages(mid, s')
    ensures AllHandled(cfg, s, s', m, vs) && SameExcept(s, s', vs) && KeepsMessages(s, s')
  {
    hide Handled;
  }

  lemma OthersHandle(s: Cluster, mid: Cluster, m: AppendReq, vs: set<Id>, v: Id)
    requires vs <= s.nodes.Keys && SameExcept(s, mid, {v}) && KeepsMessages(s, mid)
    requires forall q :: q in vs ==> To(m, q) in s.appends && InRange(s.nodes[q])
    ensures vs - {v} <= mid.nodes.Keys
    ensures forall q :: q in vs - {v} ==> To(m, q) in mid.appends && InRange(mid.nodes[q])
  {
  }

  /** All of vs handle the same request. */
  lemma {:induction false} DeliverAll(cfg: Config, s: Cluster, m: AppendReq, vs: set<Id>) returns (s': Cluster)
    requires vs <= s.nodes.Keys && Free(s, vs)
    requires forall v :: v in vs ==> To(m, v) in s.appends && InRange(s.nodes[v])
    ensures Reaches(cfg, s, s') && SameExcept(s, s', vs) && KeepsMessages(s, s') && s'.returned == s.returned
    ensures AllHandled(cfg, s, s', m, vs)
    decreases vs
  {
    if vs == {} {
      s' := s;
      ReachesSelf(cfg, s);
    } else {
      var v :| v in vs;
      var mid := DeliverOne(cfg, s, To(m, v));
      assert AllHandled(cfg, s, mid, m, {v});
      hide Reaches, Next, Handled, SameExcept, KeepsMessages, AllHandled, InRange, To;
      StillFree(s, mid, {v}, vs);
      OthersHandle(s, mid, m, vs, v);
      s' := DeliverAll(cfg, mid, m, vs - {v});
      ReachesOn(cfg, s, mid, s');
      HandledGrows(cfg, s, mid, s', m, vs, v);
    }
  }

  lemma ReturnOne(cfg: Config, s: Cluster, r: AppendReply) returns (s': Cluster)
    requires r in s.appendReplies && r.req.leader in s.nodes && InRange(s.nodes[r.req.leader])
    ensures Reaches(cfg, s, s') && SameExcept(s, s', {r.req.leader}) && KeepsMessages(s, s') && s'.returned == s.returned
    ensures s'.nodes[r.req.leader] == OnAppendReply(Self(cfg, r.req.leader), s.nodes[r.req.leader], r)
  {
    var a := ReturnAppend(r);
    s' := Next(cfg, s, a);
    ReachesNext(cfg, s, a);
    NextNodes(cfg, s, a);
  }

  /** The leader's record with nextIndex moved back to `at` for all of vs. */
  function BackedUp(n: Node, vs: set<Id>, at: nat): Node {
    n.(nextIndex := map q | q in n.nextIndex.Keys + vs :: if q in vs then at else n.nextIndex[q])
  }

  lemma BackUpOne(me: Member, n: Node, r: AppendReply, at: nat, vs: set<Id>)
    requires InRange(n) && n.role == Leader && n.currentTerm == r.req.term && r.term <= r.req.term
    requires !r.success && r.conflict == Some(at) && r.req.to in vs
    requires r.req.to in n.nextIndex && n.nextIndex[r.req.to] > 0
    ensures OnAppendReply(me, n, r) == n.(nextIndex := n.nextIndex[r.req.to := at])
    ensures BackedUp(OnAppendReply(me, n, r), vs - {r.req.to}, at) == BackedUp(n, vs, at)
  {
    assert BackedUp(OnAppendReply(me, n, r), vs - {r.req.to}, at).nextIndex == BackedUp(n, vs, at).nextIndex;
  }

  /** All of vs refuse, and the leader backs up to the index they report. */
  lemma {:induction false} BackUpAll(cfg: Config, s: Cluster, m: AppendReq, term: nat, at: nat, vs: set<Id>)
    returns (s': Cluster)
    requires m.leader in s.nodes && InRange(s.nodes[m.leader])
    requires s.nodes[m.leader].role == Leader && s.nodes[m.leader].currentTerm == m.term && term <= m.term
    requires forall v :: v in vs ==>
               && AppendReply(To(m, v), term, false, Some(at)) in s.appendReplies
               && v in s.nodes[m.leader].nextIndex && s.nodes[m.leader].nextIndex[v] > 0
    ensures Reaches(cfg, s, s') && SameExcept(s, s', {m.leader}) && KeepsMessages(s, s') && s'.returned == s.returned
    ensures s'.nodes[m.leader] == BackedUp(s.nodes[m.leader], vs, at)
    decreases vs
  {
    var n := s.nodes[m.leader];
    if vs == {} {
      s' := s;
      ReachesSelf(cfg, s);
      assert BackedUp(n, vs, at).nextIndex == n.nextIndex;
    } else {
      hide Reaches, Next, OnAppendReply, BackedUp;
      var v :| v in vs;
      var mid := ReturnOne(cfg, s, AppendReply(To(m, v), term, false, Some(at)));
      BackUpOne(Self(cfg, m.leader), n, AppendReply(To(m, v), term, false, Some(at)), at, vs);
      s' := BackUpAll(cfg, mid, m, term, at, vs - {v});
      ReachesOn(cfg, s, mid, s');
    }
  }

  // ----- Successful replies -----

  /** Only the last entry may be of the node's term. */
  ghost predicate LastOnly(n: Node) {
    n.log != [] && forall i :: 0 <= i < |n.log| - 1 ==> n.log[i].term != n.currentTerm
  }

  ghost predicate InStep(n: Node) {
    -1 <= n.lastApplied == n.commitIndex < |n.log| && n.applied == n.log[..n.commitIndex + 1]
  }

  /** l is n after success replies for its whole log from vs. */
  ghost predicate Gathered(n: Node, l: Node, vs: set<Id>) {
    && l.role == n.role && l.currentTerm == n.currentTerm && l.log == n.log && InStep(l)
    && n.matchIndex.Keys <= l.matchIndex.Keys
    && (forall q :: q in n.matchIndex && q !in vs ==> l.matchIndex[q] == n.matchIndex[q])
    && (forall q :: q in vs ==> q in l.matchIndex && l.matchIndex[q] == |n.log| - 1)
    && (forall q :: q in n.nextIndex && q !in vs ==> q in l.nextIndex && l.nextIndex[q] == n.nextIndex[q])
    && (forall q :: q in vs ==> q in l.nextIndex && l.nextIndex[q] == |n.log|)
    && (l.commitIndex == n.commitIndex || (l.commitIndex == |n.log| - 1 && LastTerm(n.log) == n.currentTerm))
  }

  lemma LargeEnough(n: Node, i: int, vs: set<Id>)
    requires forall q :: q in vs ==> q in n.matchIndex && n.matchIndex[q] >= i
    ensures Replication(n.matchIndex, i) >= 1 + |vs|
  {
    var all := set q | q in n.matchIndex && n.matchIndex[q] >= i;
    assert all == vs + (all - vs);
  }

  lemma GatherScan(me: Member, n: Node)
    requires InRange(n) && LastOnly(n) && n.commitIndex < |n.log|
    ensures var c := ScanCommit(me, n).commitIndex;
            && (c == n.commitIndex || (c == |n.log| - 1 && LastTerm(n.log) == n.currentTerm))
            && (Committable(me, n, |n.log| - 1) && n.role == Leader ==> c == |n.log| - 1)
  {
  }

  lemma CommittableSame(me: Member, n: Node, c: int, i: int)
    requires -1 <= c < |n.log|
    ensures Committable(me, Advanced(n, c), i) <==> Committable(me, n, i)
  {
  }

  lemma GatherNode(me: Member, n: Node, r: AppendReply)
    requires InRange(n) && n.role == Leader && n.currentTerm == r.req.term && r.term <= r.req.term
    requires r.success && r.req.entries != [] && r.req.End() == |n.log| && LastOnly(n) && InStep(n)
    ensures Gathered(n, OnAppendReply(me, n, r), {r.req.to})
    ensures Committable(me, OnAppendReply(me, n, r), |n.log| - 1) ==>
              OnAppendReply(me, n, r).commitIndex == |n.log| - 1
  {
    CountedIs(me, n, r);
    var indexed := Indexed(n, r);
    ApplyAdvances(me, indexed);
    GatherScan(me, indexed);
    CommittableSame(me, indexed, ScanCommit(me, indexed).commitIndex, |n.log| - 1);
    hide OnAppendReply, ApplyStateMachine, ScanCommit, Committable, LastTerm;
  }

  lemma GatheredSame(n: Node, l: Node, vs: set<Id>)
    requires Gathered(n, l, vs)
    ensures l.role == n.role && l.currentTerm == n.currentTerm && l.log == n.log && InStep(l)
    ensures InRange(l) && (LastOnly(n) ==> LastOnly(l))
  {
  }

  lemma GatheredMore(n: Node, m: Node, l: Node, vs: set<Id>, v: Id)
    requires Gathered(n, m, vs) && Gathered(m, l, {v})
    ensures Gathered(n, l, vs + {v})
  {
  }

  /** One more success reply, after those of vs - {v}. */
  lemma GatherOne(cfg: Config, s: Cluster, m: AppendReq, vs: set<Id>, v: Id, n: Node) returns (s': Cluster)
    requires m.leader in s.nodes && v in vs && Gathered(n, s.nodes[m.leader], vs - {v})
    requires n.role == Leader && n.currentTerm == m.term
    requires m.entries != [] && m.End() == |n.log| && LastOnly(n)
    requires AppendReply(To(m, v), m.term, true, None) in s.appendReplies
    ensures Reaches(cfg, s, s') && SameExcept(s, s', {m.leader}) && KeepsMessages(s, s') && s'.returned == s.returned
    ensures m.leader in s'.nodes && Gathered(n, s'.nodes[m.leader], vs)
    ensures Committable(Self(cfg, m.leader), s'.nodes[m.leader], |n.log| - 1) ==>
              s'.nodes[m.leader].commitIndex == |n.log| - 1
  {
    hide Reaches, Next, OnAppendReply, Committable, Gathered, LastOnly, InStep, InRange;
    var r := AppendReply(To(m, v), m.term, true, None);
    GatheredSame(n, s.nodes[m.leader], vs - {v});
    GatherNode(Self(cfg, m.leader), s.nodes[m.leader], r);
    s' := ReturnOne(cfg, s, r);
    GatheredMore(n, s.nodes[m.leader], s'.nodes[m.leader], vs - {v}, v);
    assert vs - {v} + {v} == vs;
  }

  lemma TwoMoves(s: Cluster, s': Cluster, s'': Cluster, vs: set<Id>)
    requires SameExcept(s, s', vs) && SameExcept(s', s'', vs) && KeepsMessages(s, s') && KeepsMessages(s', s'')
    ensures SameExcept(s, s'', vs) && KeepsMessages(s, s'')
  {
  }

  lemma GatheredNone(s: Cluster, l: Id)
    requires l in s.nodes && InStep(s.nodes[l])
    ensures Gathered(s.nodes[l], s.nodes[l], {}) && SameExcept(s, s, {l}) && KeepsMessages(s, s)
  {
  }

  lemma KeepsReplies(s: Cluster, s': Cluster, r: AppendReply)
    requires KeepsMessages(s, s') && r in s.appendReplies
    ensures r in s'.appendReplies
  {
  }

  lemma {:induction false} GatherAll(cfg: Config, s: Cluster, m: AppendReq, vs: set<Id>) returns (s': Cluster)
    requires m.leader in s.nodes && InRange(s.nodes[m.leader])
    requires s.nodes[m.leader].role == Leader && s.nodes[m.leader].currentTerm == m.term
    requires m.entries != [] && m.End() == |s.nodes[m.leader].log|
    requires LastOnly(s.nodes[m.leader]) && InStep(s.nodes[m.leader])
    requires forall v :: v in vs ==> AppendReply(To(m, v), m.term, true, None) in s.appendReplies
    ensures Reaches(cfg, s, s') && SameExcept(s, s', {m.leader}) && KeepsMessages(s, s') && s'.returned == s.returned
    ensures m.leader in s'.nodes && Gathered(s.nodes[m.leader], s'.nodes[m.leader], vs)
    ensures vs != {} && Committable(Self(cfg, m.leader), s'.nodes[m.leader], |s.nodes[m.leader].log| - 1) ==>
              s'.nodes[m.leader].commitIndex == |s.nodes[m.leader].log| - 1
    decreases vs
  {
    hide *;
    if vs == {} {
      s' := s;
      ReachesSelf(cfg, s);
      GatheredNone(s, m.leader);
    } else {
      var v :| v in vs;
      var mid := GatherAll(cfg, s, m, vs - {v});
      KeepsReplies(s, mid, AppendReply(To(m, v), m.term, true, None));
      s' := GatherOne(cfg, mid, m, vs, v, s.nodes[m.leader]);
      ReachesOn(cfg, s, mid, s');
      TwoMoves(s, mid, s', {m.leader});
    }
  }

  /** The leader's last entry is of its term and a majority has stored it: it is committed. */
  lemma GatherCommits(cfg: Config, n: Node, l: Node, c: Id, vs: set<Id>)
    requires Gathered(n, l, vs) && n.log != [] && LastTerm(n.log) == n.currentTerm
    requires 1 + |vs| >= Majority(Self(cfg, c))
    ensures Committable(Self(cfg, c), l, |n.log| - 1)
  {
    LargeEnough(l, |n.log| - 1, vs);
  }
}
