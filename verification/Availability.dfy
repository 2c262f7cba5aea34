/**
 No reachable state is stuck: any quorum of nodes that do not lead and have no unfinished
 handler can go on alone. One of them has a log that all of the others accept; it can be
 elected by them, take a command, and get the command committed and applied by all of them.
 */
module Availability {
  import opened Commands
  import opened RaftTypes
  import opened LogMerge
  import opened Handlers
  import opened Clusters
  import opened Invariants
  import opened VoteSteps
  import opened VoteAnswers
  import opened AppendAnswers
  import opened Runs
  import opened InBounds
  import opened Safety
  import opened Acknowledged
  import opened Convergence
  import opened Scenario
  import opened Actors
  import opened Phases

  // ----- The best log -----

  /** Of any nodes, one has a log at least as good as all of theirs. */
  lemma {:induction false} BestOf(s: Cluster, vs: set<Id>) returns (c: Id)
    requires vs != {} && vs <= s.nodes.Keys
    ensures c in vs && forall v :: v in vs ==> AsGood(s.nodes[c].log, s.nodes[v].log)
    decreases vs
  {
    c :| c in vs;
    if vs != {c} {
      hide AsGood;
      var b := BestOf(s, vs - {c});
      OneIsAsGood(s.nodes[c].log, s.nodes[b].log);
      if AsGood(s.nodes[c].log, s.nodes[b].log) {
        forall v | v in vs - {c} ensures AsGood(s.nodes[c].log, s.nodes[v].log) {
          AsGoodTransitive(s.nodes[c].log, s.nodes[b].log, s.nodes[v].log);
        }
        OneIsAsGood(s.nodes[c].log, s.nodes[c].log);
      } else {
        c := b;
      }
    }
  }

  /** In every state, of any nodes one gets the vote of each that has not reached its term. */
  lemma SomeNodeIsElectable(s: Cluster, vs: set<Id>) returns (c: Id)
    requires vs != {} && vs <= s.nodes.Keys
    ensures c in vs
    ensures forall v, req :: v in vs && Carries(req, s.nodes[c].log) && req.term > s.nodes[v].currentTerm ==>
              OnRequestVote(s.nodes[v], req).reply.granted
  {
    c := BestOf(s, vs);
    forall v, req | v in vs && Carries(req, s.nodes[c].log) && req.term > s.nodes[v].currentTerm
      ensures OnRequestVote(s.nodes[v], req).reply.granted
    {
      VoteGranted(s.nodes[v], req, s.nodes[c].log);
    }
  }

  // ----- A term that nobody has reached -----

  lemma {:induction false} TermAboveNodes(s: Cluster, vs: set<Id>) returns (t: nat)
    requires vs <= s.nodes.Keys
    ensures forall v :: v in vs ==> s.nodes[v].currentTerm < t
    decreases vs
  {
    t := 0;
    if vs != {} {
      var v :| v in vs;
      var rest := TermAboveNodes(s, vs - {v});
      t := s.nodes[v].currentTerm + 1 + rest;
    }
  }

  lemma {:induction false} TermAboveCalls(calls: set<Call>) returns (t: nat)
    ensures forall call :: call in calls ==> call.term < t
    decreases calls
  {
    t := 0;
    if calls != {} {
      var call :| call in calls;
      var rest := TermAboveCalls(calls - {call});
      t := call.term + 1 + rest;
    }
  }

  /** c's election timer fires until its term is at least t. */
  lemma {:induction false} Raise(cfg: Config, s: Cluster, c: Id, t: nat) returns (s': Cluster)
    requires c in s.nodes && s.nodes[c].role != Leader && InRange(s.nodes[c]) && Majority(Self(cfg, c)) > 1
    ensures Reaches(cfg, s, s') && SameExcept(s, s', {c}) && KeepsMessages(s, s') && s'.returned == s.returned
    ensures c in s'.nodes && s'.nodes[c].role != Leader && InRange(s'.nodes[c]) && s'.nodes[c].log == s.nodes[c].log
    ensures s'.nodes[c].currentTerm >= t
    decreases if s.nodes[c].currentTerm < t then t - s.nodes[c].currentTerm else 0
  {
    hide Reaches, Majority;
    if s.nodes[c].currentTerm >= t {
      s' := s;
      ReachesSelf(cfg, s);
    } else {
      var mid := StartOne(cfg, s, c);
      s' := Raise(cfg, mid, c, t);
      ReachesOn(cfg, s, mid, s');
    }
  }

  // ----- An election -----

  /** A quorum of nodes that follow or stand for election and have no unfinished handler. */
  ghost predicate Willing(cfg: Config, s: Cluster, vs: set<Id>) {
    && IsQuorum(cfg, vs) && s.nodes.Keys == cfg.members && Free(s, vs)
    && forall v :: v in vs ==> s.nodes[v].role != Leader && InRange(s.nodes[v])
  }

  lemma QuorumCounts(cfg: Config, vs: set<Id>, c: Id)
    requires IsQuorum(cfg, vs) && |cfg.members| >= 2 && c in vs
    ensures 1 < Majority(Self(cfg, c)) <= 1 + |vs - {c}|
  {
    AtLeastTwo(cfg, c);
    SelfMajority(cfg, c);
    WithoutOne(vs, c);
  }

  /** c leads, in a term that none of vs had reached; the others of vs have voted for it and
      nothing else has happened to them. */
  ghost predicate TakesCharge(s: Cluster, s': Cluster, c: Id, vs: set<Id>) {
    && c in vs && vs <= s.nodes.Keys && SameExcept(s, s', vs)
    && s'.nodes[c].role == Leader && s'.nodes[c].log == s.nodes[c].log
    && (forall v :: v in vs ==> AsGood(s.nodes[c].log, s.nodes[v].log))
    && (forall v :: v in vs ==> s.nodes[v].currentTerm < s'.nodes[c].currentTerm)
    && (forall v :: v in vs - {c} ==> s'.nodes[v] == Voted(s.nodes[v], s'.nodes[c].currentTerm, c))
  }

  /** The node with the best log of vs has reached a term that is new to vs and to all calls. */
  ghost predicate Poised(cfg: Config, s: Cluster, c: Id, vs: set<Id>) {
    && Willing(cfg, s, vs) && c in vs && ReturnedBefore(s, s.nodes[c].currentTerm + 1)
    && forall v :: v in vs ==>
         s.nodes[v].currentTerm <= s.nodes[c].currentTerm && AsGood(s.nodes[c].log, s.nodes[v].log)
  }

  lemma Poise(cfg: Config, s: Cluster, vs: set<Id>) returns (s': Cluster, c: Id)
    requires Willing(cfg, s, vs) && |cfg.members| >= 2
    ensures c in vs && c in s.nodes && Reaches(cfg, s, s') && SameExcept(s, s', {c}) && Poised(cfg, s', c, vs)
    ensures s'.nodes[c].log == s.nodes[c].log
    ensures forall v :: v in vs ==> v in s.nodes && s.nodes[v].currentTerm <= s'.nodes[c].currentTerm
  {
    assert vs != {};
    c := BestOf(s, vs);
    QuorumCounts(cfg, vs, c);
    var t := TermAboveNodes(s, vs);
    var u := TermAboveCalls(s.returned);
    hide Reaches, Majority, AsGood;
    s' := Raise(cfg, s, c, t + u);
    StillFree(s, s', {c}, vs);
  }

  lemma PoisedVoters(cfg: Config, s: Cluster, c: Id, vs: set<Id>)
    requires Poised(cfg, s, c, vs)
    ensures forall v :: v in vs - {c} ==> WillVote(s.nodes[v], Campaigner(s.nodes[c], c))
  {
    forall v | v in vs - {c} ensures WillVote(s.nodes[v], Campaigner(s.nodes[c], c)) {
      ComparisonIs(s.nodes[c].log, s.nodes[v].log);
    }
  }

  lemma QuorumElects(cfg: Config, s: Cluster, vs: set<Id>) returns (s': Cluster, c: Id)
    requires Willing(cfg, s, vs) && |cfg.members| >= 2
    ensures Reaches(cfg, s, s') && TakesCharge(s, s', c, vs)
  {
    var mid;
    mid, c := Poise(cfg, s, vs);
    QuorumCounts(cfg, vs, c);
    PoisedVoters(cfg, mid, c, vs);
    hide Reaches, Majority, AsGood, WillVote, TakesCharge;
    s' := Elect(cfg, mid, c, vs - {c});
    ReachesOn(cfg, s, mid, s');
    WithOne(vs, c);
    TookCharge(cfg, s, mid, s', c, vs);
  }

  lemma TookCharge(cfg: Config, s: Cluster, mid: Cluster, s': Cluster, c: Id, vs: set<Id>)
    requires c in vs && vs <= s.nodes.Keys && SameExcept(s, mid, {c}) && SameExcept(mid, s', vs)
    requires s.nodes.Keys == cfg.members
    requires mid.nodes[c].log == s.nodes[c].log && forall v :: v in vs ==> AsGood(mid.nodes[c].log, mid.nodes[v].log)
    requires forall v :: v in vs ==> s.nodes[v].currentTerm <= mid.nodes[c].currentTerm
    requires Crowned(cfg, c, Campaigner(mid.nodes[c], c), s'.nodes[c])
    requires Backed(mid, s', Campaigner(mid.nodes[c], c), c, vs - {c})
    ensures TakesCharge(s, s', c, vs)
  {
  }

  // ----- Leaders of earlier terms -----

  lemma {:induction false} LatestTerm(s: Cluster, vs: set<Id>) returns (l: Id)
    requires vs != {} && vs <= s.nodes.Keys
    ensures l in vs && forall v :: v in vs ==> s.nodes[v].currentTerm <= s.nodes[l].currentTerm
    decreases vs
  {
    l :| l in vs;
    if vs != {l} {
      var rest := LatestTerm(s, vs - {l});
      if s.nodes[l].currentTerm < s.nodes[rest].currentTerm {
        l := rest;
      }
    }
  }

  /** A quorum of nodes that have no unfinished handler. */
  ghost predicate Up(cfg: Config, s: Cluster, vs: set<Id>) {
    IsQuorum(cfg, vs) && s.nodes.Keys == cfg.members && Free(s, vs) && forall v :: v in vs ==> InRange(s.nodes[v])
  }

  /** None of vs leads; their logs are as before. */
  ghost predicate Quieted(s: Cluster, s': Cluster, vs: set<Id>) {
    forall v :: v in vs ==>
      && v in s.nodes && v in s'.nodes && s'.nodes[v].role != Leader && InRange(s'.nodes[v])
      && s'.nodes[v].log == s.nodes[v].log
  }

  /** A leader that is asked for its vote in a later term steps down; the others stay. */
  lemma QuietOne(cfg: Config, s: Cluster, c: Id, v: Id) returns (s': Cluster)
    requires Running(s, c, {v}) && InRange(s.nodes[v]) && s.nodes[v].currentTerm < s.nodes[c].currentTerm
    ensures Reaches(cfg, s, s') && SameExcept(s, s', {v}) && KeepsMessages(s, s') && Quieted(s, s', {v})
  {
    hide Reaches;
    if s.nodes[v].role == Leader {
      s' := Depose(cfg, s, Ask(s.nodes[c], c, v));
    } else {
      s' := s;
      ReachesSelf(cfg, s);
    }
  }

  lemma RunsStill(s: Cluster, mid: Cluster, c: Id, vs: set<Id>, v: Id)
    requires Running(s, c, vs) && v in vs && SameExcept(s, mid, {v}) && KeepsMessages(s, mid)
    ensures Running(mid, c, vs - {v}) && mid.nodes[c] == s.nodes[c]
  {
    StillFree(s, mid, {v}, vs);
    hide Busy;
  }

  lemma {:induction false} QuietAll(cfg: Config, s: Cluster, c: Id, vs: set<Id>) returns (s': Cluster)
    requires Running(s, c, vs)
    requires forall v :: v in vs ==> InRange(s.nodes[v]) && s.nodes[v].currentTerm < s.nodes[c].currentTerm
    ensures Reaches(cfg, s, s') && SameExcept(s, s', vs) && Quieted(s, s', vs)
    decreases vs
  {
    hide Reaches, KeepsMessages, Running;
    if vs == {} {
      s' := s;
      ReachesSelf(cfg, s);
    } else {
      var v :| v in vs;
      RunsWith(s, c, vs, v);
      var mid := QuietOne(cfg, s, c, v);
      RunsStill(s, mid, c, vs, v);
      s' := QuietAll(cfg, mid, c, vs - {v});
      ReachesOn(cfg, s, mid, s');
    }
  }

  /** p does not lead. Its timer fires until it stands in a term that none of vs has reached. */
  lemma Challenge(cfg: Config, s: Cluster, p: Id, vs: set<Id>) returns (s': Cluster)
    requires Up(cfg, s, vs) && |cfg.members| >= 2 && p in vs && s.nodes[p].role != Leader
    ensures Reaches(cfg, s, s') && SameExcept(s, s', {p}) && Free(s', vs) && Quieted(s, s', {p})
    ensures Running(s', p, vs - {p})
    ensures forall v :: v in vs - {p} ==> InRange(s'.nodes[v]) && s'.nodes[v].currentTerm < s'.nodes[p].currentTerm
  {
    AtLeastTwo(cfg, p);
    hide Reaches, Majority, Free, Running;
    var t := TermAboveNodes(s, vs);
    var raised := Raise(cfg, s, p, t);
    s' := StartOne(cfg, raised, p);
    ReachesOn(cfg, s, raised, s');
    AllAsked(cfg, s, raised, s', p, vs);
  }

  /** Then its vote requests make the leaders among vs step down. */
  lemma Quiet(cfg: Config, s: Cluster, p: Id, vs: set<Id>) returns (s': Cluster)
    requires Up(cfg, s, vs) && |cfg.members| >= 2 && p in vs && s.nodes[p].role != Leader
    ensures Reaches(cfg, s, s') && SameExcept(s, s', vs) && Willing(cfg, s', vs) && Quieted(s, s', vs)
  {
    hide Reaches, Running, Up, Free, Quieted, SameExcept, Willing, InRange;
    var started := Challenge(cfg, s, p, vs);
    s' := QuietAll(cfg, started, p, vs - {p});
    ReachesOn(cfg, s, started, s');
    QuietNow(cfg, s, started, s', p, vs);
  }

  lemma AllAsked(cfg: Config, s: Cluster, raised: Cluster, started: Cluster, p: Id, vs: set<Id>)
    requires Up(cfg, s, vs) && p in vs && SameExcept(s, raised, {p}) && SameExcept(raised, started, {p})
    requires forall v :: v in vs ==> s.nodes[v].currentTerm <= raised.nodes[p].currentTerm
    requires started.nodes[p] == Campaigner(raised.nodes[p], p)
    requires forall q :: q in cfg.members - {p} ==> Ask(started.nodes[p], p, q) in started.voteReqs
    ensures Running(started, p, vs - {p}) && SameExcept(s, started, {p}) && Free(started, vs)
    ensures forall v :: v in vs - {p} ==>
              InRange(started.nodes[v]) && started.nodes[v].currentTerm < started.nodes[p].currentTerm
  {
    StillFree(s, raised, {p}, vs);
    StillFree(raised, started, {p}, vs);
    hide Ask, InRange, Busy;
  }

  lemma OneThenOthers(a: Cluster, b: Cluster, c: Cluster, p: Id, vs: set<Id>)
    requires p in vs && SameExcept(a, b, {p}) && SameExcept(b, c, vs - {p})
    ensures SameExcept(a, c, vs)
  {
  }

  lemma QuietNow(cfg: Config, s: Cluster, started: Cluster, s': Cluster, p: Id, vs: set<Id>)
    requires Up(cfg, s, vs) && p in vs && SameExcept(s, started, {p}) && Free(started, vs)
    requires SameExcept(started, s', vs - {p}) && Quieted(started, s', vs - {p})
    requires Quieted(s, started, {p})
    ensures SameExcept(s, s', vs) && Willing(cfg, s', vs) && Quieted(s, s', vs)
  {
    OneThenOthers(s, started, s', p, vs);
    StillFree(started, s', vs - {p}, vs);
    QuietHere(s, started, s', p, vs);
    hide Free, InRange, SameExcept;
  }

  lemma QuietHere(s: Cluster, started: Cluster, s': Cluster, p: Id, vs: set<Id>)
    requires p in vs && SameExcept(s, started, {p}) && SameExcept(started, s', vs - {p})
    requires Quieted(started, s', vs - {p}) && Quieted(s, started, {p})
    ensures Quieted(s, s', vs) && s'.nodes.Keys == s.nodes.Keys
  {
    hide InRange;
    forall v | v in vs
      ensures v in s.nodes && v in s'.nodes && s'.nodes[v].role != Leader && InRange(s'.nodes[v])
      ensures s'.nodes[v].log == s.nodes[v].log
    {
      assert v != p ==> v in started.nodes && started.nodes[v] == s.nodes[v];
    }
  }

  // ----- Replication to one peer -----

  /** All that more than half hold, by matchIndex, is committed and applied. */
  ghost predicate AllCommitted(me: Member, n: Node) {
    forall i :: MayCommit(me, n, i) ==> i <= n.commitIndex && i <= n.lastApplied
  }

  /** The leader has something left to send to q, or it has counted q for its whole log and
      has committed what it may. */
  ghost predicate Told(me: Member, n: Node, q: Id) {
    || NextIndex(n, q) < |n.log|
    || (q in n.matchIndex && n.matchIndex[q] == |n.log| - 1 && AllCommitted(me, n))
  }

  ghost predicate StillLeads(n: Node, n': Node, qs: set<Id>) {
    n'.role == Leader && n'.currentTerm == n.currentTerm && n'.log == n.log && OthersSame(n, n', qs)
  }

  lemma AcceptanceTells(me: Member, n: Node, r: AppendReply)
    requires InRange(n) && Heeded(n, r) && r.success && Told(me, n, r.req.to) && r.req.End() <= |n.log|
    ensures Told(me, OnAppendReply(me, n, r), r.req.to) && StillLeads(n, OnAppendReply(me, n, r), {r.req.to})
  {
    if r.req.entries == [] {
      AppendReplyIgnored(me, n, r);
    } else {
      AppendReplyCounted(me, n, r);
    }
    hide OnAppendReply, MayCommit, AllApplied;
  }

  lemma RefusalTells(me: Member, n: Node, r: AppendReply)
    requires InRange(n) && Heeded(n, r) && !r.success
    ensures StillLeads(n, OnAppendReply(me, n, r), {r.req.to})
  {
    AppendReplyRefused(me, n, r);
    hide OnAppendReply;
  }

  lemma RefusedReply(me: Member, them: Member, p: Pair)
    requires Able(me, them, p) && !Accepted(me, them, p)
    ensures var r := OnAppendEntries(them, p.follower, MakeAppend(me, p.leader, them.id)).reply;
            Heeded(p.leader, r) && !r.success && r.req.to == them.id
  {
    hide Store, LexLess;
  }

  lemma ExchangeTells(me: Member, them: Member, p: Pair)
    requires Able(me, them, p) && Told(me, p.leader, them.id)
    ensures Told(me, Exchange(me, them, p).leader, them.id)
    ensures StillLeads(p.leader, Exchange(me, them, p).leader, {them.id})
  {
    hide *;
    AbleParts(me, them, p);
    AcceptedIff(me, them, p);
    ExchangeIs(me, them, p);
    var m := MakeAppend(me, p.leader, them.id);
    var r := OnAppendEntries(them, p.follower, m).reply;
    if Accepted(me, them, p) {
      SentIs(me, them, p);
      ProgressIs(p, them.id);
      AcceptedFollower(them, p.follower, m);
      HeededIs(p.leader, r);
      AcceptanceTells(me, p.leader, r);
    } else {
      RefusedReply(me, them, p);
      RefusalTells(me, p.leader, r);
      Refused(me, them, p);
      ToldBefore(me, Exchange(me, them, p).leader, them.id, p);
    }
  }

  lemma HeededIs(n: Node, r: AppendReply)
    requires n.role == Leader && r.term == r.req.term == n.currentTerm
    ensures Heeded(n, r)
  {
  }

  lemma ToldBefore(me: Member, n: Node, q: Id, p: Pair)
    requires NextIndex(n, q) == Min(NextIndex(p.leader, q) - 1, |p.follower.log|)
    requires NextIndex(p.leader, q) <= |p.leader.log| == |n.log|
    ensures Told(me, n, q)
  {
  }

  lemma StillLeadsOn(n: Node, m: Node, l: Node, qs: set<Id>, ps: set<Id>)
    requires StillLeads(n, m, qs) && StillLeads(m, l, ps)
    ensures StillLeads(n, l, qs + ps)
  {
  }

  lemma StillLeadsSelf(n: Node, qs: set<Id>)
    requires n.role == Leader
    ensures StillLeads(n, n, qs)
  {
  }

  lemma TripExcept(s: Cluster, s': Cluster, l: Id, q: Id)
    requires l in s.nodes && q in s.nodes && l in s'.nodes && q in s'.nodes
    requires s'.nodes == s.nodes[q := s'.nodes[q]][l := s'.nodes[l]] && SameWaiting(s, s')
    ensures SameExcept(s, s', {l, q})
  {
  }

  lemma ExceptTwice(a: Cluster, b: Cluster, c: Cluster, vs: set<Id>)
    requires SameExcept(a, b, vs) && SameExcept(b, c, vs)
    ensures SameExcept(a, c, vs)
  {
  }

  lemma TripReaches(cfg: Config, s: Cluster, l: Id, q: Id, sent: Cluster, handled: Cluster, s': Cluster)
    requires Trip(cfg, s, l, q, sent, handled, s')
    ensures Reaches(cfg, s, s')
  {
    MakeAppendTo(Self(cfg, l), s.nodes[l], q);
    hide Next, Reaches, OnAppendEntries, MakeAppend, Busy;
    var m := MakeAppend(Self(cfg, l), s.nodes[l], q);
    ReachesNext(cfg, s, Heartbeats(l));
    ReachesNext(cfg, sent, DeliverAppend(m));
    ReachesNext(cfg, handled, ReturnAppend(OnAppendEntries(Self(cfg, q), sent.nodes[q], m).reply));
    ReachesOn(cfg, s, sent, handled);
    ReachesOn(cfg, s, handled, s');
  }

  /** k round trips with q, and what they do to the two nodes. */
  lemma {:induction false} Trips(cfg: Config, s: Cluster, l: Id, q: Id, k: nat) returns (s': Cluster)
    requires Pairable(cfg, s, l, q) && !Busy(s, q) && l in s.nodes && q in s.nodes
    requires Told(Self(cfg, l), s.nodes[l], q)
    ensures Reaches(cfg, s, s') && SameExcept(s, s', {l, q})
    ensures Pairable(cfg, s', l, q) && l in s'.nodes && q in s'.nodes
    ensures Able(Self(cfg, l), Self(cfg, q), PairOf(s, l, q))
    ensures PairOf(s', l, q) == Exchanges(Self(cfg, l), Self(cfg, q), PairOf(s, l, q), k)
    ensures Told(Self(cfg, l), s'.nodes[l], q) && StillLeads(s.nodes[l], s'.nodes[l], {q})
    decreases k
  {
    hide Pairable, Trip, Able, Busy, Told, StillLeads, Reaches, SameExcept, Exchange, Exchanges, TimelyReachable;
    var me := Self(cfg, l);
    var them := Self(cfg, q);
    PairableAble(cfg, s, l, q);
    AbleParts(me, them, PairOf(s, l, q));
    if k == 0 {
      s' := s;
      ReachesSelf(cfg, s);
      NoExchanges(me, them, PairOf(s, l, q));
      StillLeadsSelf(s.nodes[l], {q});
      TripExcept(s, s, l, q);
    } else {
      var sent, handled, mid := TripIsExchange(cfg, s, l, q);
      TripReaches(cfg, s, l, q, sent, handled, mid);
      TripExcept(s, mid, l, q);
      StillPairable(cfg, s, l, q, mid);
      ExchangeTells(me, them, PairOf(s, l, q));
      ExchangesStep(me, them, PairOf(s, l, q), k);
      s' := Trips(cfg, mid, l, q, k - 1);
      ReachesOn(cfg, s, mid, s');
      ExceptTwice(s, mid, s', {l, q});
      StillLeadsOn(s.nodes[l], mid.nodes[l], s'.nodes[l], {q}, {q});
      assert {q} + {q} == {q};
    }
  }

  /** q holds the leader's log, and the leader has counted it. */
  ghost predicate Holds(s: Cluster, l: Id, q: Id) {
    && l in s.nodes && q in s.nodes && s.nodes[l].log <= s.nodes[q].log
    && NextIndex(s.nodes[l], q) == |s.nodes[l].log|
    && q in s.nodes[l].matchIndex && s.nodes[l].matchIndex[q] == |s.nodes[l].log| - 1
  }

  lemma ToldAll(cfg: Config, s: Cluster, l: Id, q: Id)
    requires l in s.nodes && q in s.nodes && Told(Self(cfg, l), s.nodes[l], q)
    requires Converged(Self(cfg, q), PairOf(s, l, q))
    ensures Holds(s, l, q) && AllCommitted(Self(cfg, l), s.nodes[l])
  {
    hide AllCommitted;
  }

  /** Round trips until q holds the leader's log. */
  lemma BringUp(cfg: Config, s: Cluster, l: Id, q: Id) returns (s': Cluster)
    requires Pairable(cfg, s, l, q) && !Busy(s, q) && l in s.nodes && q in s.nodes
    requires Told(Self(cfg, l), s.nodes[l], q)
    ensures Reaches(cfg, s, s') && SameExcept(s, s', {l, q})
    ensures Pairable(cfg, s', l, q) && StillLeads(s.nodes[l], s'.nodes[l], {q})
    ensures Holds(s', l, q) && AllCommitted(Self(cfg, l), s'.nodes[l])
  {
    hide Pairable, Able, Busy, Told, StillLeads, Reaches, SameExcept, Exchanges, AllCommitted, Holds, Converged;
    var p := PairOf(s, l, q);
    PairableAble(cfg, s, l, q);
    SharedHeld(p);
    NextInLog(Self(cfg, l), Self(cfg, q), p);
    var k := Needed(|p.leader.log|, NextIndex(p.leader, q), Shared(p), |p.follower.log|);
    s' := Trips(cfg, s, l, q, k);
    Converges(Self(cfg, l), Self(cfg, q), p, k);
    ToldAll(cfg, s', l, q);
  }

  // ----- Replication to all of them -----

  /** l leads, and the nodes of vs can be brought up to its log. */
  ghost predicate Ready(cfg: Config, s: Cluster, l: Id, vs: set<Id>) {
    && ValidConfig(cfg) && TimelyReachable(cfg, s)
    && l in s.nodes && s.nodes[l].role == Leader && l !in vs && vs <= s.nodes.Keys && Free(s, vs)
    && forall v :: v in vs ==> s.nodes[v].currentTerm <= s.nodes[l].currentTerm && Told(Self(cfg, l), s.nodes[l], v)
  }

  lemma ReadyOne(cfg: Config, s: Cluster, l: Id, vs: set<Id>, v: Id)
    requires Ready(cfg, s, l, vs) && v in vs
    ensures Pairable(cfg, s, l, v) && !Busy(s, v) && l in s.nodes && v in s.nodes && Told(Self(cfg, l), s.nodes[l], v)
  {
    hide TimelyReachable, Told, Busy;
  }

  lemma ToldStill(me: Member, n: Node, n': Node, v: Id, w: Id)
    requires Told(me, n, w) && StillLeads(n, n', {v}) && AllCommitted(me, n') && w != v
    ensures Told(me, n', w)
  {
    hide AllCommitted;
  }

  lemma StillReady(cfg: Config, s: Cluster, mid: Cluster, l: Id, vs: set<Id>, v: Id)
    requires Ready(cfg, s, l, vs) && v in vs && SameExcept(s, mid, {l, v}) && TimelyReachable(cfg, mid)
    requires l in s.nodes && l in mid.nodes && StillLeads(s.nodes[l], mid.nodes[l], {v})
    requires AllCommitted(Self(cfg, l), mid.nodes[l])
    ensures Ready(cfg, mid, l, vs - {v})
  {
    StillFree(s, mid, {l, v}, vs);
    hide TimelyReachable, AllCommitted, Busy, Told;
    forall w | w in vs - {v} ensures Told(Self(cfg, l), mid.nodes[l], w) {
      ToldStill(Self(cfg, l), s.nodes[l], mid.nodes[l], v, w);
    }
  }

  /** What v has been brought up to stays, while others are. */
  lemma StillHolds(s: Cluster, s': Cluster, l: Id, v: Id, ws: set<Id>)
    requires Holds(s, l, v) && SameExcept(s, s', ws + {l}) && v !in ws && v != l
    requires l in s'.nodes && StillLeads(s.nodes[l], s'.nodes[l], ws)
    ensures Holds(s', l, v) && v in s.nodes && s'.nodes[v] == s.nodes[v]
  {
  }

  lemma SomeExcept(a: Cluster, b: Cluster, c: Cluster, l: Id, v: Id, vs: set<Id>)
    requires v in vs && SameExcept(a, b, {l, v}) && SameExcept(b, c, vs - {v} + {l})
    ensures SameExcept(a, c, vs + {l})
  {
  }

  /** All of vs hold the leader's log, and are not in a later term. */
  ghost predicate AllHold(s: Cluster, l: Id, vs: set<Id>) {
    forall v :: v in vs ==> Holds(s, l, v) && s.nodes[v].currentTerm <= s.nodes[l].currentTerm
  }

  lemma ReadyParts(cfg: Config, s: Cluster, l: Id, vs: set<Id>)
    requires Ready(cfg, s, l, vs)
    ensures TimelyReachable(cfg, s) && l in s.nodes && s.nodes[l].role == Leader && l !in vs
  {
    hide TimelyReachable;
  }

  lemma PairableParts(cfg: Config, s: Cluster, l: Id, v: Id)
    requires Pairable(cfg, s, l, v)
    ensures TimelyReachable(cfg, s) && l in s.nodes && v in s.nodes && s.nodes[v].currentTerm <= s.nodes[l].currentTerm
  {
    hide TimelyReachable;
  }

  lemma AllHoldOneMore(s: Cluster, s': Cluster, l: Id, vs: set<Id>, v: Id)
    requires v in vs && l !in vs && Holds(s, l, v) && SameExcept(s, s', vs - {v} + {l})
    requires l in s.nodes && l in s'.nodes && StillLeads(s.nodes[l], s'.nodes[l], vs - {v})
    requires v in s.nodes && s.nodes[v].currentTerm <= s.nodes[l].currentTerm && AllHold(s', l, vs - {v})
    ensures AllHold(s', l, vs)
  {
    StillHolds(s, s', l, v, vs - {v});
    hide Holds;
  }

  lemma {:induction false} BringAllUp(cfg: Config, s: Cluster, l: Id, vs: set<Id>) returns (s': Cluster)
    requires Ready(cfg, s, l, vs)
    ensures Reaches(cfg, s, s') && SameExcept(s, s', vs + {l}) && TimelyReachable(cfg, s')
    ensures l in s.nodes && l in s'.nodes && StillLeads(s.nodes[l], s'.nodes[l], vs) && AllHold(s', l, vs)
    ensures vs != {} || AllCommitted(Self(cfg, l), s.nodes[l]) ==> AllCommitted(Self(cfg, l), s'.nodes[l])
    decreases vs
  {
    hide *;
    ReadyParts(cfg, s, l, vs);
    if vs == {} {
      s' := s;
      ReachesSelf(cfg, s);
      StillLeadsSelf(s.nodes[l], {});
      NothingChanges(s, l);
    } else {
      var v :| v in vs;
      ReadyOne(cfg, s, l, vs, v);
      var mid := BringUp(cfg, s, l, v);
      PairableParts(cfg, mid, l, v);
      StillReady(cfg, s, mid, l, vs, v);
      s' := BringAllUp(cfg, mid, l, vs - {v});
      ReachesOn(cfg, s, mid, s');
      SomeExcept(s, mid, s', l, v, vs);
      StillLeadsOn(s.nodes[l], mid.nodes[l], s'.nodes[l], {v}, vs - {v});
      assert {v} + (vs - {v}) == vs;
      AllHoldOneMore(mid, s', l, vs, v);
    }
  }

  lemma NothingChanges(s: Cluster, l: Id)
    ensures SameExcept(s, s, {} + {l}) && AllHold(s, l, {})
  {
  }

  // ----- The commit index gets around -----

  lemma SharedWhole(p: Pair)
    requires |p.leader.log| <= Shared(p)
    ensures p.leader.log <= p.follower.log
  {
    assert p.leader.log[..|p.leader.log|] == p.leader.log && p.follower.log[..|p.leader.log|] <= p.follower.log;
  }

  lemma NotTurnedDown(me: Member, them: Member, p: Pair)
    requires Able(me, them, p) && NextIndex(p.leader, them.id) <= Shared(p)
    ensures var m := MakeAppend(me, p.leader, them.id);
            !TurnedDown(them, p.follower, m) && !Misses(p.follower.log, m) && m.leaderCommit == p.leader.commitIndex
  {
    AcceptedIff(me, them, p);
    hide Accepted, Shared, Matching, LexLess;
  }

  lemma CommitGoes(me: Member, f: Node, m: AppendReq, n: nat)
    requires InRange(f) && !TurnedDown(me, f, m) && !Misses(f.log, m) && m.leaderCommit >= n - 1
    ensures n <= |OnAppendEntries(me, f, m).node.log| ==> OnAppendEntries(me, f, m).node.commitIndex >= n - 1
  {
    AppendAccepted(me, f, m);
    hide OnAppendEntries, MayCommit, AllApplied, TurnedDown, Misses, Merge;
  }

  /** With one more round trip a follower that holds the leader's log learns what is committed. */
  lemma Confirmed(me: Member, them: Member, p: Pair)
    requires Able(me, them, p) && InRange(p.follower)
    requires p.leader.log <= p.follower.log && NextIndex(p.leader, them.id) == |p.leader.log|
    requires p.leader.commitIndex >= |p.leader.log| - 1
    ensures Exchange(me, them, p).leader == p.leader
    ensures p.leader.log <= Exchange(me, them, p).follower.log
    ensures Exchange(me, them, p).follower.commitIndex >= |p.leader.log| - 1
  {
    var m := MakeAppend(me, p.leader, them.id);
    assert p.leader.log[..|p.leader.log|] == p.leader.log;
    SharedWithin(p);
    PrefixIsShared(p.leader.log, p.follower.log, |p.leader.log|);
    hide *;
    NotTurnedDown(me, them, p);
    AbleParts(me, them, p);
    AcceptedIff(me, them, p);
    SentIs(me, them, p);
    ProgressIs(p, them.id);
    AcceptedFollower(them, p.follower, m);
    AcceptedExchange(me, them, p);
    ExchangeIs(me, them, p);
    SharedWhole(Exchange(me, them, p));
    CommitGoes(them, p.follower, m, |p.leader.log|);
    AppendReplyIgnored(me, p.leader, OnAppendEntries(them, p.follower, m).reply);
  }

  /** q holds the leader's log and knows that all of it is committed. */
  ghost predicate Knows(s: Cluster, l: Id, q: Id) {
    && l in s.nodes && q in s.nodes
    && s.nodes[l].log <= s.nodes[q].log && s.nodes[q].commitIndex >= |s.nodes[l].log| - 1
  }

  /** l leads and has committed its whole log; the nodes of vs hold it. */
  ghost predicate Settling(cfg: Config, s: Cluster, l: Id, vs: set<Id>) {
    && ValidConfig(cfg) && TimelyReachable(cfg, s)
    && l in s.nodes && s.nodes[l].role == Leader && l !in vs && vs <= s.nodes.Keys && Free(s, vs)
    && s.nodes[l].commitIndex >= |s.nodes[l].log| - 1 && AllHold(s, l, vs)
  }

  lemma SettlingOne(cfg: Config, s: Cluster, l: Id, vs: set<Id>, v: Id)
    requires Settling(cfg, s, l, vs) && v in vs
    ensures Pairable(cfg, s, l, v) && !Busy(s, v) && l in s.nodes && v in s.nodes && Holds(s, l, v)
    ensures s.nodes[l].commitIndex >= |s.nodes[l].log| - 1
  {
    hide TimelyReachable, Holds, Busy;
  }

  lemma Confirm(cfg: Config, s: Cluster, l: Id, v: Id) returns (s': Cluster)
    requires Pairable(cfg, s, l, v) && !Busy(s, v) && l in s.nodes && v in s.nodes && Holds(s, l, v)
    requires s.nodes[l].commitIndex >= |s.nodes[l].log| - 1
    ensures Reaches(cfg, s, s') && SameExcept(s, s', {l, v}) && TimelyReachable(cfg, s')
    ensures l in s'.nodes && s'.nodes[l] == s.nodes[l] && Knows(s', l, v)
  {
    hide Pairable, Able, Busy, Trip, Exchange, Reaches, TimelyReachable, SameExcept, RoundTrip;
    PairableAble(cfg, s, l, v);
    var sent, handled;
    sent, handled, s' := TripIsExchange(cfg, s, l, v);
    TripReaches(cfg, s, l, v, sent, handled, s');
    TripExcept(s, s', l, v);
    Confirmed(Self(cfg, l), Self(cfg, v), PairOf(s, l, v));
  }

  lemma StillSettling(cfg: Config, s: Cluster, mid: Cluster, l: Id, vs: set<Id>, v: Id)
    requires Settling(cfg, s, l, vs) && v in vs && SameExcept(s, mid, {l, v}) && TimelyReachable(cfg, mid)
    requires l in s.nodes && l in mid.nodes && mid.nodes[l] == s.nodes[l]
    ensures Settling(cfg, mid, l, vs - {v})
  {
    StillFree(s, mid, {l, v}, vs);
    hide TimelyReachable, Busy;
  }

  lemma SettlingParts(cfg: Config, s: Cluster, l: Id, vs: set<Id>)
    requires Settling(cfg, s, l, vs)
    ensures TimelyReachable(cfg, s) && l in s.nodes && l !in vs
  {
    hide TimelyReachable;
  }

  lemma KnowsOneMore(s: Cluster, s': Cluster, l: Id, vs: set<Id>, v: Id)
    requires v in vs && l !in vs && Knows(s, l, v) && SameExcept(s, s', vs - {v} + {l})
    requires l in s.nodes && l in s'.nodes && s'.nodes[l] == s.nodes[l]
    requires forall w :: w in vs - {v} ==> Knows(s', l, w)
    ensures forall w :: w in vs ==> Knows(s', l, w)
  {
  }

  lemma {:induction false} ConfirmAll(cfg: Config, s: Cluster, l: Id, vs: set<Id>) returns (s': Cluster)
    requires Settling(cfg, s, l, vs)
    ensures Reaches(cfg, s, s') && SameExcept(s, s', vs + {l}) && TimelyReachable(cfg, s')
    ensures l in s.nodes && l in s'.nodes && s'.nodes[l] == s.nodes[l]
    ensures forall v :: v in vs ==> Knows(s', l, v)
    decreases vs
  {
    hide *;
    SettlingParts(cfg, s, l, vs);
    if vs == {} {
      s' := s;
      ReachesSelf(cfg, s);
      NothingChanges(s, l);
    } else {
      var v :| v in vs;
      SettlingOne(cfg, s, l, vs, v);
      var mid := Confirm(cfg, s, l, v);
      StillSettling(cfg, s, mid, l, vs, v);
      s' := ConfirmAll(cfg, mid, l, vs - {v});
      ReachesOn(cfg, s, mid, s');
      SomeExcept(s, mid, s', l, v, vs);
      KnowsOneMore(mid, s', l, vs, v);
    }
  }

  // ----- All together -----

  /** c leads, and its log is its log in s with the command at the end. */
  ghost predicate Took(s: Cluster, s': Cluster, c: Id, command: Command) {
    && c in s.nodes && c in s'.nodes && s'.nodes[c].role == Leader
    && s'.nodes[c].log == s.nodes[c].log + [Entry(s'.nodes[c].currentTerm, command)]
  }

  /** The nodes of vs are up, and l of them leads in a term that none of the others is past. */
  ghost predicate Led(cfg: Config, s: Cluster, l: Id, vs: set<Id>) {
    && Up(cfg, s, vs) && l in vs && s.nodes[l].role == Leader
    && forall v :: v in vs ==> s.nodes[v].currentTerm <= s.nodes[l].currentTerm
  }

  lemma LedAfter(cfg: Config, s: Cluster, s': Cluster, c: Id, vs: set<Id>)
    requires Willing(cfg, s, vs) && TakesCharge(s, s', c, vs)
    requires forall v :: v in vs && v in s'.nodes ==> InRange(s'.nodes[v])
    ensures Led(cfg, s', c, vs)
  {
    StillFree(s, s', vs, vs);
    hide Busy, InRange;
  }

  lemma InRanges(cfg: Config, s: Cluster, vs: set<Id>)
    requires TimelyReachable(cfg, s)
    ensures forall v :: v in vs && v in s.nodes ==> InRange(s.nodes[v])
  {
    hide TimelyReachable, Reachable, InRange;
    TimelyIsReachable(cfg, s);
    forall v | v in vs && v in s.nodes ensures InRange(s.nodes[v]) {
      ReachableSettled(cfg, s, v);
    }
  }

  /** One of a quorum leads the others, at once or after an election. */
  lemma QuorumLeads(cfg: Config, s: Cluster, vs: set<Id>) returns (s': Cluster, c: Id)
    requires ValidConfig(cfg) && TimelyReachable(cfg, s) && Up(cfg, s, vs) && |cfg.members| >= 2
    ensures Reaches(cfg, s, s') && TimelyReachable(cfg, s') && SameExcept(s, s', vs) && Led(cfg, s', c, vs)
    ensures c in s.nodes && c in s'.nodes && s'.nodes[c].log == s.nodes[c].log
  {
    hide TimelyReachable, Reaches, Willing, AsGood, InRange, Busy;
    if p :| p in vs && s.nodes[p].role != Leader {
      var quiet := Quiet(cfg, s, p, vs);
      s', c := QuorumElects(cfg, quiet, vs);
      ReachesOn(cfg, s, quiet, s');
      TimelyOn(cfg, s, s');
      InRanges(cfg, s', vs);
      LedAfter(cfg, quiet, s', c, vs);
    } else {
      assert vs != {};
      s' := s;
      c := LatestTerm(s, vs);
      ReachesSelf(cfg, s);
    }
  }

  lemma ReadyAfter(cfg: Config, s: Cluster, s': Cluster, c: Id, vs: set<Id>, command: Command)
    requires ValidConfig(cfg) && TimelyReachable(cfg, s) && TimelyReachable(cfg, s') && Led(cfg, s, c, vs)
    requires SameExcept(s, s', {c})
    requires s'.nodes[c] == s.nodes[c].(log := s.nodes[c].log + [Entry(s.nodes[c].currentTerm, command)])
    ensures Ready(cfg, s', c, vs - {c}) && Took(s, s', c, command)
  {
    StillFree(s, s', {c}, vs);
    hide TimelyReachable, Busy, AllCommitted, InRange;
    forall v | v in vs - {c} ensures Told(Self(cfg, c), s'.nodes[c], v) {
      NextIndexInLog(cfg, s, c, v);
    }
  }

  /** A quorum has a leader, which takes the command. */
  lemma QuorumTakes(cfg: Config, s: Cluster, vs: set<Id>, command: Command) returns (s': Cluster, c: Id)
    requires ValidConfig(cfg) && TimelyReachable(cfg, s) && Up(cfg, s, vs) && |cfg.members| >= 2
    ensures Reaches(cfg, s, s') && SameExcept(s, s', vs) && c in vs
    ensures Ready(cfg, s', c, vs - {c}) && Took(s, s', c, command)
  {
    hide TimelyReachable, Reaches, Ready, MakeAppend, Busy, InRange;
    var led;
    led, c := QuorumLeads(cfg, s, vs);
    AtLeastTwo(cfg, c);
    s' := Write(cfg, led, c, command);
    TimelyOn(cfg, led, s');
    ReachesOn(cfg, s, led, s');
    ReadyAfter(cfg, led, s', c, vs, command);
  }

  /** The leader has counted a quorum for its last entry: it is committed. */
  lemma LastIsCommitted(cfg: Config, s: Cluster, c: Id, vs: set<Id>)
    requires c in s.nodes && IsQuorum(cfg, vs) && c in vs && s.nodes[c].log != []
    requires LastTerm(s.nodes[c].log) == s.nodes[c].currentTerm
    requires AllHold(s, c, vs - {c}) && AllCommitted(Self(cfg, c), s.nodes[c])
    ensures s.nodes[c].commitIndex >= |s.nodes[c].log| - 1
  {
    var n := s.nodes[c];
    var last := |n.log| - 1;
    WithoutOne(vs, c);
    SelfMajority(cfg, c);
    assert Hold(n.matchIndex, vs - {c}, last);
    assert MayCommit(Self(cfg, c), n, last);
  }

  /** All of vs have the leader's whole log, have committed and applied it. */
  ghost predicate AllServed(cfg: Config, s: Cluster, l: Id, vs: set<Id>) {
    && l in vs && vs <= s.nodes.Keys
    && forall v :: v in vs ==>
         && s.nodes[l].log <= s.nodes[v].log
         && |s.nodes[l].log| - 1 <= s.nodes[v].commitIndex <= s.nodes[v].lastApplied
         && (ScanIsSafe(cfg) ==> s.nodes[l].log <= s.nodes[v].applied)
  }

  lemma Served(cfg: Config, s: Cluster, l: Id, vs: set<Id>)
    requires ValidConfig(cfg) && TimelyReachable(cfg, s) && l in vs && l in s.nodes
    requires s.nodes[l].commitIndex >= |s.nodes[l].log| - 1
    requires forall v :: v in vs - {l} ==> Knows(s, l, v)
    ensures AllServed(cfg, s, l, vs)
  {
    hide TimelyReachable, Reachable;
    TimelyIsReachable(cfg, s);
    forall v | v in vs
      ensures v in s.nodes && |s.nodes[l].log| - 1 <= s.nodes[v].commitIndex <= s.nodes[v].lastApplied
      ensures s.nodes[l].log <= s.nodes[v].log && (ScanIsSafe(cfg) ==> s.nodes[l].log <= s.nodes[v].applied)
    {
      assert Knows(s, l, v);
      ReachableSettled(cfg, s, v);
      if ScanIsSafe(cfg) {
        AppliedInOrder(cfg, s, v);
      }
    }
  }

  lemma SettlingAfter(cfg: Config, s: Cluster, s': Cluster, c: Id, vs: set<Id>)
    requires Ready(cfg, s, c, vs) && TimelyReachable(cfg, s') && SameExcept(s, s', vs + {c})
    requires c in s'.nodes && s'.nodes[c].role == Leader && AllHold(s', c, vs)
    requires s'.nodes[c].commitIndex >= |s'.nodes[c].log| - 1
    ensures Settling(cfg, s', c, vs)
  {
    StillFree(s, s', vs + {c}, vs);
    hide TimelyReachable, Busy;
  }

  /** The quorum has the command stored and committed by the one that took it. */
  lemma QuorumSettles(cfg: Config, s: Cluster, vs: set<Id>, command: Command) returns (s': Cluster, c: Id)
    requires ValidConfig(cfg) && TimelyReachable(cfg, s) && Up(cfg, s, vs) && |cfg.members| >= 2
    ensures Reaches(cfg, s, s') && SameExcept(s, s', vs) && c in vs
    ensures Settling(cfg, s', c, vs - {c}) && Took(s, s', c, command)
  {
    hide *;
    var took;
    took, c := QuorumTakes(cfg, s, vs, command);
    QuorumOf(cfg, s, vs);
    s' := BringAllUp(cfg, took, c, vs - {c});
    HeldCommits(cfg, s, took, s', c, vs, command);
    SettlingAfter(cfg, took, s', c, vs - {c});
    ReachesOn(cfg, s, took, s');
    WithOne(vs, c);
    ExceptTwice(s, took, s', vs);
  }

  lemma QuorumOf(cfg: Config, s: Cluster, vs: set<Id>)
    requires Up(cfg, s, vs)
    ensures IsQuorum(cfg, vs)
  {
  }

  lemma WithOne(vs: set<Id>, c: Id)
    requires c in vs
    ensures vs - {c} + {c} == vs
  {
  }

  lemma PeersServe(cfg: Config, s: Cluster, vs: set<Id>, command: Command) returns (s': Cluster, c: Id)
    requires ValidConfig(cfg) && TimelyReachable(cfg, s) && IsQuorum(cfg, vs) && Free(s, vs) && |cfg.members| >= 2
    ensures Reaches(cfg, s, s') && SameExcept(s, s', vs)
    ensures Took(s, s', c, command) && AllServed(cfg, s', c, vs)
  {
    QuorumIsUp(cfg, s, vs);
    hide *;
    var held;
    held, c := QuorumSettles(cfg, s, vs, command);
    SettlingCommits(cfg, held, c, vs - {c});
    s' := ConfirmAll(cfg, held, c, vs - {c});
    Served(cfg, s', c, vs);
    ReachesOn(cfg, s, held, s');
    WithOne(vs, c);
    ExceptTwice(s, held, s', vs);
    TookStill(s, held, s', c, command);
  }

  /** The only member of a cluster leads, if need be after its timer has fired. */
  lemma AloneLeads(cfg: Config, s: Cluster, c: Id) returns (s': Cluster)
    requires TimelyReachable(cfg, s) && cfg.members == {c} && c in s.nodes
    ensures Reaches(cfg, s, s') && TimelyReachable(cfg, s') && SameExcept(s, s', {c})
    ensures c in s'.nodes && s'.nodes[c].role == Leader && s'.nodes[c].log == s.nodes[c].log
  {
    hide TimelyReachable, Reaches, StartElection;
    if s.nodes[c].role == Leader {
      s' := s;
      ReachesSelf(cfg, s);
    } else {
      InRanges(cfg, s, {c});
      ElectionStarts(Self(cfg, c), s.nodes[c]);
      s' := Next(cfg, s, Timeout(c));
      NextNodes(cfg, s, Timeout(c));
      ReachesNext(cfg, s, Timeout(c));
      TimelyOn(cfg, s, s');
    }
  }

  lemma AloneServes(cfg: Config, s: Cluster, c: Id, command: Command) returns (s': Cluster)
    requires ValidConfig(cfg) && TimelyReachable(cfg, s) && cfg.members == {c} && c in s.nodes
    ensures Reaches(cfg, s, s') && SameExcept(s, s', {c})
    ensures Took(s, s', c, command) && AllServed(cfg, s', c, {c})
  {
    hide TimelyReachable, Reaches, SubmitCommand, Reachable, Broadcast;
    var led := AloneLeads(cfg, s, c);
    AppliedInOrder(cfg, led, c);
    InRanges(cfg, led, {c});
    SubmitAnswered(Self(cfg, c), led.nodes[c], command);
    s' := Next(cfg, led, Submit(c, command));
    NextNodes(cfg, led, Submit(c, command));
    ReachesNext(cfg, led, Submit(c, command));
    ReachesOn(cfg, s, led, s');
    TimelyOn(cfg, led, s');
    Served(cfg, s', c, {c});
  }

  /** From every state that a timely run reaches, a quorum of nodes none of which has an
      unfinished handler can go on without the others: one of them leads, takes the command,
      and all of them commit and apply it. */
  lemma QuorumServes(cfg: Config, s: Cluster, vs: set<Id>, command: Command) returns (s': Cluster, c: Id)
    requires ValidConfig(cfg) && TimelyReachable(cfg, s) && IsQuorum(cfg, vs) && Free(s, vs)
    ensures Reaches(cfg, s, s') && SameExcept(s, s', vs)
    ensures Took(s, s', c, command) && AllServed(cfg, s', c, vs)
  {
    QuorumIsUp(cfg, s, vs);
    hide TimelyReachable, Reaches, Took, AllServed, SameExcept, Free, InRange;
    if |cfg.members| >= 2 {
      s', c := PeersServe(cfg, s, vs, command);
    } else {
      c :| c in vs;
      OnlyMember(cfg, vs, c);
      s' := AloneServes(cfg, s, c, command);
    }
  }

  lemma OnlyMember(cfg: Config, vs: set<Id>, c: Id)
    requires IsQuorum(cfg, vs) && |cfg.members| < 2 && c in vs
    ensures cfg.members == {c} == vs
  {
    WithoutOne(cfg.members, c);
  }

  lemma SettlingCommits(cfg: Config, s: Cluster, l: Id, vs: set<Id>)
    requires Settling(cfg, s, l, vs)
    ensures l in s.nodes && s.nodes[l].commitIndex >= |s.nodes[l].log| - 1
  {
  }

  lemma QuorumIsUp(cfg: Config, s: Cluster, vs: set<Id>)
    requires ValidConfig(cfg) && TimelyReachable(cfg, s) && IsQuorum(cfg, vs) && Free(s, vs)
    ensures Up(cfg, s, vs)
  {
    hide TimelyReachable, Base, Busy, InRange;
    TimelyBase(cfg, s);
    MembersAre(cfg, s);
    InRanges(cfg, s, vs);
  }

  lemma HeldCommits(cfg: Config, s: Cluster, took: Cluster, held: Cluster, c: Id, vs: set<Id>, command: Command)
    requires IsQuorum(cfg, vs) && |cfg.members| >= 2 && c in vs && Took(s, took, c, command)
    requires c in took.nodes && c in held.nodes && StillLeads(took.nodes[c], held.nodes[c], vs - {c})
    requires AllHold(held, c, vs - {c})
    requires vs - {c} != {} ==> AllCommitted(Self(cfg, c), held.nodes[c])
    ensures held.nodes[c].role == Leader && held.nodes[c].commitIndex >= |held.nodes[c].log| - 1
    ensures Took(s, held, c, command)
  {
    WithoutOne(vs, c);
    LastIsCommitted(cfg, held, c, vs);
    hide AllHold, AllCommitted;
  }

  lemma TookStill(s: Cluster, held: Cluster, s': Cluster, c: Id, command: Command)
    requires Took(s, held, c, command) && c in held.nodes && c in s'.nodes && s'.nodes[c] == held.nodes[c]
    ensures Took(s, s', c, command)
  {
  }
}
