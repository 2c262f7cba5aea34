/**
 What onAppendEntries can do when it goes on in a later term than its request's: a run, for
 every cluster of three members or more that does not look at the term again. While a's
 handler waits for the mutex, a handles no other request: only its timer, its clients and the
 replies to its own calls act on it.

 Three members a, b, c; the others do as a asks:
   1  a leads, and appends nothing
   2  b leads and sends an entry to a, whose handler steps down and waits in the gap
   3  a's timer fires; a leads with the votes of all but b, appends an entry, commits it when
      the others have stored it, and tells c; b learns of the term from a's vote request
   4  c's timer fires; c answers a's next heartbeat with its term, and a steps down
   5  a's timer fires; a leads with the votes of all but c
 Then a's handler goes on with b's request: the leader a replaces the entry that it has
 committed and applied.
 */
module LateResume {
  import opened Commands
  import opened RaftTypes
  import opened LogMerge
  import opened Handlers
  import opened Clusters
  import opened InBounds
  import opened Scenario
  import opened Phases

  /** What b sends in term 2. */
  function Gone(): Log { [Entry(2, LegacySet("worker", "idle"))] }

  /** What a appends in term 3. */
  function Applied(): Log { [Entry(3, LegacySet("worker", "busy"))] }

  ghost predicate Trio(cfg: Config, a: Id, b: Id, c: Id) {
    && |cfg.members| >= 3 && a in cfg.members && b in cfg.members && c in cfg.members
    && a != b && b != c && a != c
  }

  lemma TwoFewer(vs: set<Id>, x: Id, y: Id)
    requires x in vs && y in vs && x != y
    ensures |vs - {x}| == |vs| - 1 && |vs - {x} - {y}| == |vs| - 2
  {
    WithoutOne(vs, x);
    WithoutOne(vs - {x}, y);
  }

  lemma MajorityIs(cfg: Config, v: Id)
    requires v in cfg.members && |cfg.members| >= 3
    ensures Majority(Self(cfg, v)) <= |cfg.members| - 1
  {
    WithoutOne(cfg.members, v);
    assert Self(cfg, v).peers == cfg.members - {v};
  }

  lemma TrioSets(cfg: Config, a: Id, b: Id, c: Id)
    requires Trio(cfg, a, b, c)
    ensures a in cfg.members && b in cfg.members && c in cfg.members && |cfg.members| >= 3
    ensures a != b && b != c && a != c && b in cfg.members - {a} && c in cfg.members - {a}
    ensures c in cfg.members - {a} - {b} && cfg.members - {a} - {b} <= cfg.members - {a}
    ensures cfg.members - {a} - {b} <= cfg.members - {b} && cfg.members - {a} - {b} <= cfg.members
    ensures cfg.members - {a} - {b} - {c} + {c} == cfg.members - {a} - {b}
    ensures a !in cfg.members - {a} - {b} && b !in cfg.members - {a} - {b}
  {
  }

  lemma TrioFacts(cfg: Config, a: Id, b: Id, c: Id)
    requires Trio(cfg, a, b, c)
    ensures a in cfg.members && b in cfg.members && c in cfg.members && |cfg.members| >= 2
    ensures a != b && b != c && a != c && b in cfg.members - {a} && c in cfg.members - {a}
    ensures c in cfg.members - {a} - {b} && cfg.members - {a} - {b} <= cfg.members - {a}
    ensures cfg.members - {a} - {b} <= cfg.members - {b} && cfg.members - {a} - {b} <= cfg.members
    ensures a !in cfg.members - {a} - {b} && b !in cfg.members - {a} - {b} && cfg.members - {a} - {b} != {}
    ensures forall v :: v in cfg.members ==>
              && Majority(Self(cfg, v)) <= 1 + |cfg.members - {a}|
              && Majority(Self(cfg, v)) <= 1 + |cfg.members - {a} - {b}|
  {
    hide *;
    TrioSets(cfg, a, b, c);
    TwoFewer(cfg.members, a, b);
    forall v | v in cfg.members ensures Majority(Self(cfg, v)) <= |cfg.members| - 1 {
      MajorityIs(cfg, v);
    }
  }

  lemma NothingUpToDate()
    ensures var none: Log := []; UpToDate(|none| - 1, LastTerm(none), none)
  {
  }

  lemma StartIdle(cfg: Config, vs: set<Id>)
    requires vs <= cfg.members
    ensures Alive(cfg, Init(cfg), 1) && AllIdle(Init(cfg), vs, 0, []) && Calm(Init(cfg))
    ensures forall v :: v in cfg.members ==>
              v in Init(cfg).nodes && Init(cfg).nodes[v].role != Leader && Has(Init(cfg).nodes[v], 0, [], -1)
  {
    TimelyInit(cfg);
  }

  lemma IdleMember(s: Cluster, vs: set<Id>, v: Id, ws: set<Id>, t: nat, log: Log)
    requires AllIdle(s, vs, t, log) && v in vs && ws <= vs
    ensures v in s.nodes && s.nodes[v].role != Leader && Has(s.nodes[v], t, log, -1) && AllIdle(s, ws, t, log)
  {
  }

  function BSends(a: Id, b: Id): AppendReq {
    AppendReq(2, b, a, -1, 0, Gone(), -1)
  }

  lemma SendsAll(cfg: Config, s: Cluster, s': Cluster, l: Id, q: Id, t: nat, log: Log)
    requires InCharge(s', l, t, log, -1) && Fresh(cfg, s, l, 0) && s'.nodes[l].nextIndex == s.nodes[l].nextIndex
    requires |log| == 1 && q in cfg.members - {l}
    ensures MakeAppend(Self(cfg, l), s'.nodes[l], q) == AppendReq(t, l, q, -1, 0, log, -1)
  {
  }

  lemma TrioLeads(cfg: Config, a: Id, b: Id, c: Id)
    requires Trio(cfg, a, b, c)
    ensures a in cfg.members && |cfg.members| >= 2 && Majority(Self(cfg, a)) <= 1 + |cfg.members - {a}|
  {
    hide *;
    TrioFacts(cfg, a, b, c);
  }

  lemma FirstTerm(cfg: Config, a: Id, b: Id, c: Id) returns (s: Cluster)
    requires Trio(cfg, a, b, c)
    ensures Alive(cfg, s, 2) && Calm(s) && InCharge(s, a, 1, [], -1) && AllIdle(s, cfg.members - {a}, 1, [])
  {
    hide *;
    TrioLeads(cfg, a, b, c);
    NothingUpToDate();
    StartIdle(cfg, cfg.members - {a});
    s := ElectIdle(cfg, Init(cfg), a, cfg.members - {a}, 0, [], 1, [], -1);
  }

  lemma FirstTerms(cfg: Config, a: Id, b: Id, c: Id) returns (s: Cluster)
    requires Trio(cfg, a, b, c)
    ensures Alive(cfg, s, 3) && Calm(s) && InCharge(s, a, 1, [], -1) && InCharge(s, b, 2, [], -1) && Fresh(cfg, s, b, 0)
    ensures AllIdle(s, cfg.members - {a} - {b}, 2, [])
  {
    hide *;
    TrioFacts(cfg, a, b, c);
    NothingUpToDate();
    var one := FirstTerm(cfg, a, b, c);
    IdleMember(one, cfg.members - {a}, b, cfg.members - {a} - {b}, 1, []);
    s := ElectIdle(cfg, one, b, cfg.members - {a} - {b}, 1, [], 2, [], -1);
    InChargeKept(one, s, cfg.members - {a} - {b} + {b}, a, 1, [], -1);
  }

  lemma SecondTerm(cfg: Config, a: Id, b: Id, c: Id) returns (s: Cluster)
    requires Trio(cfg, a, b, c)
    ensures Alive(cfg, s, 3) && Calm(s) && InCharge(s, a, 1, [], -1) && AllIdle(s, cfg.members - {a} - {b}, 2, [])
    ensures InCharge(s, b, 2, Gone(), -1) && BSends(a, b) in s.appends
  {
    hide *;
    TrioFacts(cfg, a, b, c);
    LogsAre();
    var led := FirstTerms(cfg, a, b, c);
    s := WriteIdle(cfg, led, b, 2, [], -1, LegacySet("worker", "idle"));
    SendsAll(cfg, led, s, b, a, 2, Gone());
    BSendsIs(a, b);
    InChargeKept(led, s, {b}, a, 1, [], -1);
    IdleKept(led, s, {b}, cfg.members - {a} - {b}, 2, []);
  }

  lemma LogsAre()
    ensures [] + [Entry(2, LegacySet("worker", "idle"))] == Gone() && |Gone()| == 1
    ensures [] + [Entry(3, LegacySet("worker", "busy"))] == Applied() && |Applied()| == 1
    ensures LastTerm(Applied()) == 3
  {
  }

  lemma BSendsIs(a: Id, b: Id)
    ensures BSends(a, b) == AppendReq(2, b, a, -1, 0, Gone(), -1)
  {
  }

  // ----- In the gap -----

  function Handler(a: Id, b: Id): Paused {
    Paused(BSends(a, b), 1)
  }

  /** One handler waits for the mutex, and no other. */
  ghost predicate OneWaits(s: Cluster, p: Paused) {
    s.parked == {} && s.parkedAppends == {p}
  }

  lemma StillWaits(s: Cluster, s': Cluster, ws: set<Id>, p: Paused)
    requires OneWaits(s, p) && SameExcept(s, s', ws)
    ensures OneWaits(s', p)
  {
  }

  lemma OthersFree(s: Cluster, a: Id, b: Id, v: Id)
    requires OneWaits(s, Handler(a, b)) && v != a
    ensures !Busy(s, v)
  {
  }

  /** A node that does not lead, whether or not one of its handlers waits. */
  ghost predicate Rests(s: Cluster, v: Id, t: nat, log: Log, commit: int) {
    v in s.nodes && s.nodes[v].role != Leader && Has(s.nodes[v], t, log, commit)
  }

  lemma RestsHas(s: Cluster, v: Id, t: nat, log: Log, commit: int)
    requires Rests(s, v, t, log, commit)
    ensures v in s.nodes && s.nodes[v].role != Leader && Has(s.nodes[v], t, log, commit)
  {
  }

  lemma RestsKept(s: Cluster, s': Cluster, ws: set<Id>, v: Id, t: nat, log: Log, commit: int)
    requires Rests(s, v, t, log, commit) && SameExcept(s, s', ws) && v !in ws
    ensures Rests(s', v, t, log, commit)
  {
  }

  /** a's handler gets as far as the gap. */
  lemma StepDownIdle(cfg: Config, s: Cluster, a: Id, b: Id, vs: set<Id>) returns (s': Cluster)
    requires Alive(cfg, s, 3) && Calm(s) && InCharge(s, a, 1, [], -1) && BSends(a, b) in s.appends && a != b && a !in vs
    requires InCharge(s, b, 2, Gone(), -1) && AllIdle(s, vs, 2, [])
    ensures Alive(cfg, s', 3) && OneWaits(s', Handler(a, b)) && Rests(s', a, 2, [], -1)
    ensures InCharge(s', b, 2, Gone(), -1) && AllIdle(s', vs, 2, [])
  {
    hide TimelyReachable;
    CalmFree(s, a);
    s' := Next(cfg, s, StepDown(BSends(a, b)));
    TimelyNext(cfg, s, StepDown(BSends(a, b)));
    forall v | v in vs ensures !Busy(s', v) {
      OthersFree(s', a, b, v);
    }
  }

  lemma InGap(cfg: Config, a: Id, b: Id, c: Id) returns (s: Cluster)
    requires Trio(cfg, a, b, c)
    ensures Alive(cfg, s, 3) && OneWaits(s, Handler(a, b)) && Rests(s, a, 2, [], -1)
    ensures InCharge(s, b, 2, Gone(), -1) && AllIdle(s, cfg.members - {a} - {b}, 2, [])
  {
    hide *;
    TrioFacts(cfg, a, b, c);
    var sent := SecondTerm(cfg, a, b, c);
    s := StepDownIdle(cfg, sent, a, b, cfg.members - {a} - {b});
  }

  // ----- Term 3 -----

  /** What a sends to all but b. */
  function ASends3(a: Id): AppendReq {
    AppendReq(3, a, a, -1, 0, Applied(), -1)
  }

  lemma ASends3Facts(a: Id)
    ensures ASends3(a).term == 3 && ASends3(a).leader == a && ASends3(a).entries != [] && ASends3(a).End() == |Applied()|
    ensures ASends3(a).leaderCommit == -1 && PrevMatches([], ASends3(a)) && ASends3(a).First() == 0
    ensures Merge([], ASends3(a).First(), ASends3(a).entries) == Applied()
    ensures LastTerm(Applied()) == 3 && |Applied()| == 1
    ensures forall q :: To(ASends3(a), q) == AppendReq(3, a, q, -1, 0, Applied(), -1)
  {
    hide Merge;
    MergeAtEnd([], Applied());
    assert [] + Applied() == Applied();
  }

  /** What a asks b in its election. */
  function AAsks(a: Id, b: Id): VoteReq {
    VoteReq(3, a, b, -1, 0)
  }

  lemma AAsksIs(a: Id, b: Id)
    ensures var none: Log := []; VoteReq(3, a, b, |none| - 1, LastTerm(none)) == AAsks(a, b)
    ensures AAsks(a, b).to == b && AAsks(a, b).term == 3
  {
  }

  /** a leads in the gap. */
  lemma ThirdTerm(cfg: Config, a: Id, b: Id, c: Id) returns (s: Cluster)
    requires Trio(cfg, a, b, c)
    ensures Alive(cfg, s, 4) && OneWaits(s, Handler(a, b)) && InCharge(s, a, 3, [], -1) && Fresh(cfg, s, a, 0)
    ensures AllIdle(s, cfg.members - {a} - {b}, 3, []) && InCharge(s, b, 2, Gone(), -1) && AAsks(a, b) in s.voteReqs
  {
    hide *;
    var vs := cfg.members - {a} - {b};
    TrioFacts(cfg, a, b, c);
    NothingUpToDate();
    AAsksIs(a, b);
    var gap := InGap(cfg, a, b, c);
    RestsHas(gap, a, 2, [], -1);
    s := ElectIdle(cfg, gap, a, vs, 2, [], 3, [], -1);
    var none: Log := [];
    assert VoteReq(3, a, b, |none| - 1, LastTerm(none)) in s.voteReqs;
    InChargeKept(gap, s, vs + {a}, b, 2, Gone(), -1);
    StillWaits(gap, s, vs + {a}, Handler(a, b));
  }

  /** And appends an entry. */
  lemma ThirdWritten(cfg: Config, led: Cluster, a: Id, vs: set<Id>) returns (s: Cluster)
    requires Alive(cfg, led, 4) && AllIdle(led, vs, 3, []) && InCharge(led, a, 3, [], -1) && Fresh(cfg, led, a, 0)
    requires vs <= cfg.members - {a} && |cfg.members| >= 2
    ensures Alive(cfg, s, 4) && SameExcept(led, s, {a}) && KeepsMessages(led, s)
    ensures AllIdle(s, vs, 3, []) && InCharge(s, a, 3, Applied(), -1)
    ensures forall q :: q in vs ==> To(ASends3(a), q) in s.appends
  {
    hide *;
    LogsAre();
    ASends3Facts(a);
    s := WriteIdle(cfg, led, a, 3, [], -1, LegacySet("worker", "busy"));
    IdleKept(led, s, {a}, vs, 3, []);
    forall q | q in vs ensures To(ASends3(a), q) in s.appends {
      SendsAll(cfg, led, s, a, q, 3, Applied());
      assert MakeAppend(Self(cfg, a), s.nodes[a], q) in s.appends;
    }
  }

  lemma KeptThrough(s: Cluster, s': Cluster, s'': Cluster)
    requires KeepsMessages(s, s') && KeepsMessages(s', s'')
    ensures KeepsMessages(s, s'') && s.voteReqs <= s''.voteReqs
  {
  }

  /** The others have stored the entry, and a has committed and applied it. */
  lemma Stored(cfg: Config, a: Id, b: Id, c: Id) returns (s: Cluster)
    requires Trio(cfg, a, b, c)
    ensures Alive(cfg, s, 4) && OneWaits(s, Handler(a, b)) && InCharge(s, a, 3, Applied(), 0)
    ensures a in s.nodes && NextIndex(s.nodes[a], c) == 1
    ensures AllIdle(s, cfg.members - {a} - {b}, 3, Applied())
    ensures InCharge(s, b, 2, Gone(), -1) && AAsks(a, b) in s.voteReqs
  {
    hide *;
    var vs := cfg.members - {a} - {b};
    TrioFacts(cfg, a, b, c);
    ASends3Facts(a);
    var led := ThirdTerm(cfg, a, b, c);
    var sent := ThirdWritten(cfg, led, a, vs);
    var stored := StoreIdle(cfg, sent, ASends3(a), vs, 3, [], Applied());
    InChargeKept(sent, stored, vs, a, 3, Applied(), -1);
    s := CommitIdle(cfg, stored, ASends3(a), vs, Applied(), -1);
    IdleKept(stored, s, {a}, vs, 3, Applied());
    InChargeKept(led, sent, {a}, b, 2, Gone(), -1);
    InChargeKept(sent, stored, vs, b, 2, Gone(), -1);
    InChargeKept(stored, s, {a}, b, 2, Gone(), -1);
    StillWaits(led, sent, {a}, Handler(a, b));
    StillWaits(sent, stored, vs, Handler(a, b));
    StillWaits(stored, s, {a}, Handler(a, b));
    KeptThrough(led, sent, stored);
    KeptThrough(led, stored, s);
  }

  /** a's heartbeat for c, when it has committed the entry. */
  function Tells(a: Id, c: Id): AppendReq {
    AppendReq(3, a, c, 0, 3, [], 0)
  }

  lemma SendsCommit(cfg: Config, s: Cluster, a: Id, c: Id)
    requires InCharge(s, a, 3, Applied(), 0) && NextIndex(s.nodes[a], c) == 1
    ensures MakeAppend(Self(cfg, a), s.nodes[a], c) == Tells(a, c)
  {
  }

  lemma HearsCommit(cfg: Config, n: Node, a: Id, c: Id)
    requires Idle(n, 3, Applied())
    ensures Has(Handled(cfg, n, Tells(a, c)).node, 3, Applied(), 0)
    ensures Handled(cfg, n, Tells(a, c)).node.role == Follower
  {
    assert [] + Applied()[0..1] == Applied()[..1];
  }

  lemma TellOne(cfg: Config, s: Cluster, a: Id, c: Id) returns (s': Cluster)
    requires Alive(cfg, s, 4) && AllIdle(s, {c}, 3, Applied()) && Tells(a, c) in s.appends
    ensures Alive(cfg, s', 4) && SameExcept(s, s', {c}) && KeepsMessages(s, s') && Waits(s', c, 3, Applied(), 0)
  {
    hide TimelyReachable, Next, Handled;
    WaitsIdle(s, c, 3, Applied());
    s' := DeliverOne(cfg, s, Tells(a, c));
    TimelyOn(cfg, s, s');
    StillFree(s, s', {c}, {c});
    HearsCommit(cfg, s.nodes[c], a, c);
  }

  /** a has told c, too. */
  lemma Told(cfg: Config, a: Id, b: Id, c: Id) returns (s: Cluster)
    requires Trio(cfg, a, b, c)
    ensures Alive(cfg, s, 4) && OneWaits(s, Handler(a, b)) && InCharge(s, a, 3, Applied(), 0)
    ensures a in s.nodes && NextIndex(s.nodes[a], c) == 1
    ensures Waits(s, c, 3, Applied(), 0) && AllIdle(s, cfg.members - {a} - {b} - {c}, 3, Applied())
    ensures InCharge(s, b, 2, Gone(), -1) && AAsks(a, b) in s.voteReqs
  {
    hide *;
    TrioFacts(cfg, a, b, c);
    var rest := cfg.members - {a} - {b} - {c};
    var stored := Stored(cfg, a, b, c);
    IdleMember(stored, cfg.members - {a} - {b}, c, rest, 3, Applied());
    IdleMember(stored, cfg.members - {a} - {b}, c, {c}, 3, Applied());
    var beaten := BeatIdle(cfg, stored, a, 3, Applied(), 0);
    SendsCommit(cfg, stored, a, c);
    IdleKept(stored, beaten, {}, {c}, 3, Applied());
    s := TellOne(cfg, beaten, a, c);
    IdleKept(stored, beaten, {}, rest, 3, Applied());
    IdleKept(beaten, s, {c}, rest, 3, Applied());
    InChargeKept(stored, beaten, {}, a, 3, Applied(), 0);
    InChargeKept(beaten, s, {c}, a, 3, Applied(), 0);
    InChargeKept(stored, beaten, {}, b, 2, Gone(), -1);
    InChargeKept(beaten, s, {c}, b, 2, Gone(), -1);
    StillWaits(stored, beaten, {}, Handler(a, b));
    StillWaits(beaten, s, {c}, Handler(a, b));
    KeptThrough(stored, beaten, s);
  }

  /** b hears of a's term. */
  lemma BDeposed(cfg: Config, a: Id, b: Id, c: Id) returns (s: Cluster)
    requires Trio(cfg, a, b, c)
    ensures Alive(cfg, s, 4) && OneWaits(s, Handler(a, b)) && InCharge(s, a, 3, Applied(), 0)
    ensures a in s.nodes && NextIndex(s.nodes[a], c) == 1
    ensures Waits(s, c, 3, Applied(), 0) && AllIdle(s, cfg.members - {a} - {b} - {c}, 3, Applied())
    ensures AllIdle(s, {b}, 3, Gone())
  {
    hide *;
    TrioFacts(cfg, a, b, c);
    AAsksIs(a, b);
    var rest := cfg.members - {a} - {b} - {c};
    var told := Told(cfg, a, b, c);
    OthersFree(told, a, b, b);
    s := DeposeIdle(cfg, told, b, 2, Gone(), -1, AAsks(a, b), 4);
    WaitsIdle(s, b, 3, Gone());
    WaitsKept(told, s, {b}, c, 3, Applied(), 0);
    IdleKept(told, s, {b}, rest, 3, Applied());
    InChargeKept(told, s, {b}, a, 3, Applied(), 0);
    StillWaits(told, s, {b}, Handler(a, b));
  }

  // ----- Term 4 -----

  lemma CampaignRests(s: Cluster, s': Cluster, c: Id)
    requires Waits(s, c, 3, Applied(), 0) && c in s'.nodes && s'.nodes[c] == Campaigner(s.nodes[c], c)
    ensures Rests(s', c, 4, Applied(), 0)
  {
  }

  lemma WaitsCan(cfg: Config, s: Cluster, c: Id)
    requires Waits(s, c, 3, Applied(), 0) && Alive(cfg, s, 4) && c in cfg.members && |cfg.members| >= 2
    ensures c in s.nodes && s.nodes[c].role != Leader && InRange(s.nodes[c]) && TimelyReachable(cfg, s)
    ensures Majority(Self(cfg, c)) > 1
  {
    AtLeastTwo(cfg, c);
  }

  lemma StaysAlive(cfg: Config, s: Cluster, s': Cluster, t: nat, t': nat, vs: set<Id>)
    requires Alive(cfg, s, t) && SameExcept(s, s', vs) && s'.returned == s.returned && TimelyReachable(cfg, s') && t <= t'
    ensures Alive(cfg, s', t')
  {
    hide TimelyReachable;
  }

  /** c's timer fires. */
  lemma CCampaigns(cfg: Config, s: Cluster, c: Id) returns (s': Cluster)
    requires Waits(s, c, 3, Applied(), 0) && Alive(cfg, s, 4) && c in cfg.members && |cfg.members| >= 2
    ensures Alive(cfg, s', 5) && SameExcept(s, s', {c}) && KeepsMessages(s, s') && Rests(s', c, 4, Applied(), 0)
  {
    hide *;
    WaitsCan(cfg, s, c);
    s' := StartOne(cfg, s, c);
    TimelyOn(cfg, s, s');
    SameNodes(s, s', c);
    CampaignRests(s, s', c);
    StaysAlive(cfg, s, s', 4, 5, {c});
  }

  lemma SameNodes(s: Cluster, s': Cluster, c: Id)
    requires SameExcept(s, s', {c}) && c in s.nodes
    ensures c in s'.nodes
  {
  }

  /** c's answer to a heartbeat of term 3. */
  function Answer(a: Id, c: Id): AppendReply {
    AppendReply(Tells(a, c), 4, false, None)
  }

  lemma Answers(cfg: Config, n: Node, a: Id, c: Id)
    requires n.role != Leader && Has(n, 4, Applied(), 0)
    ensures InRange(n) && Handled(cfg, n, Tells(a, c)) == AppendOutcome(n, Answer(a, c))
  {
  }

  lemma AnswerOne(cfg: Config, s: Cluster, a: Id, c: Id) returns (s': Cluster)
    requires Alive(cfg, s, 5) && Rests(s, c, 4, Applied(), 0) && Tells(a, c) in s.appends && !Busy(s, c)
    ensures Alive(cfg, s', 5) && SameExcept(s, s', {c}) && KeepsMessages(s, s')
    ensures Rests(s', c, 4, Applied(), 0) && Answer(a, c) in s'.appendReplies
  {
    hide TimelyReachable, Next, Handled;
    Answers(cfg, s.nodes[c], a, c);
    s' := DeliverOne(cfg, s, Tells(a, c));
    TimelyOn(cfg, s, s');
  }

  /** a hears of term 4, by the reply to its own call. */
  lemma StepDownOne(cfg: Config, s: Cluster, a: Id, c: Id) returns (s': Cluster)
    requires Alive(cfg, s, 5) && InCharge(s, a, 3, Applied(), 0) && Answer(a, c) in s.appendReplies
    ensures Alive(cfg, s', 5) && SameExcept(s, s', {a}) && KeepsMessages(s, s') && Rests(s', a, 4, Applied(), 0)
  {
    hide TimelyReachable, Next;
    s' := ReturnOne(cfg, s, Answer(a, c));
    TimelyOn(cfg, s, s');
  }

  lemma FourthTerm(cfg: Config, a: Id, b: Id, c: Id) returns (s: Cluster)
    requires Trio(cfg, a, b, c)
    ensures Alive(cfg, s, 5) && OneWaits(s, Handler(a, b)) && Rests(s, a, 4, Applied(), 0) && Rests(s, c, 4, Applied(), 0)
    ensures AllIdle(s, cfg.members - {a} - {b} - {c}, 3, Applied()) && AllIdle(s, {b}, 3, Gone())
  {
    hide *;
    TrioFacts(cfg, a, b, c);
    var rest := cfg.members - {a} - {b} - {c};
    var third := BDeposed(cfg, a, b, c);
    var started := CCampaigns(cfg, third, c);
    InChargeKept(third, started, {c}, a, 3, Applied(), 0);
    var beaten := FourthBeat(cfg, started, a, c);
    StillWaits(third, started, {c}, Handler(a, b));
    StillWaits(started, beaten, {}, Handler(a, b));
    RestsKept(started, beaten, {}, c, 4, Applied(), 0);
    InChargeKept(started, beaten, {}, a, 3, Applied(), 0);
    OthersFree(beaten, a, b, c);
    var answered := AnswerOne(cfg, beaten, a, c);
    InChargeKept(beaten, answered, {c}, a, 3, Applied(), 0);
    s := StepDownOne(cfg, answered, a, c);
    RestsKept(answered, s, {a}, c, 4, Applied(), 0);
    StillWaits(beaten, answered, {c}, Handler(a, b));
    StillWaits(answered, s, {a}, Handler(a, b));
    FourthKept(third, started, beaten, answered, s, a, b, c, rest);
  }

  /** a's next heartbeat is the same request once more. */
  lemma FourthBeat(cfg: Config, s: Cluster, a: Id, c: Id) returns (s': Cluster)
    requires Alive(cfg, s, 5) && InCharge(s, a, 3, Applied(), 0) && a in s.nodes && NextIndex(s.nodes[a], c) == 1
    requires a in cfg.members && c in cfg.members - {a} && |cfg.members| >= 2
    ensures Alive(cfg, s', 5) && SameExcept(s, s', {}) && KeepsMessages(s, s') && Tells(a, c) in s'.appends
  {
    hide TimelyReachable, Next, MakeAppend;
    AtLeastTwo(cfg, a);
    SendsCommit(cfg, s, a, c);
    s' := Beat(cfg, s, a);
    TimelyOn(cfg, s, s');
  }

  lemma FourthKept(s: Cluster, s1: Cluster, s2: Cluster, s3: Cluster, s4: Cluster, a: Id, b: Id, c: Id, rest: set<Id>)
    requires SameExcept(s, s1, {c}) && SameExcept(s1, s2, {}) && SameExcept(s2, s3, {c}) && SameExcept(s3, s4, {a})
    requires a !in rest && c !in rest && a != b && b != c
    requires AllIdle(s, rest, 3, Applied()) && AllIdle(s, {b}, 3, Gone())
    ensures AllIdle(s4, rest, 3, Applied()) && AllIdle(s4, {b}, 3, Gone())
  {
    hide *;
    FourStill(s, s1, s2, s3, s4, a, c, rest, 3, Applied());
    FourStill(s, s1, s2, s3, s4, a, c, {b}, 3, Gone());
  }

  lemma FourStill(s: Cluster, s1: Cluster, s2: Cluster, s3: Cluster, s4: Cluster, a: Id, c: Id, vs: set<Id>, t: nat, log: Log)
    requires SameExcept(s, s1, {c}) && SameExcept(s1, s2, {}) && SameExcept(s2, s3, {c}) && SameExcept(s3, s4, {a})
    requires a !in vs && c !in vs && AllIdle(s, vs, t, log)
    ensures AllIdle(s4, vs, t, log)
  {
    hide *;
    IdleKept(s, s1, {c}, vs, t, log);
    IdleKept(s1, s2, {}, vs, t, log);
    IdleKept(s2, s3, {c}, vs, t, log);
    IdleKept(s3, s4, {a}, vs, t, log);
  }

  // ----- Term 5 -----

  lemma Comparable()
    ensures UpToDate(|Applied()| - 1, LastTerm(Applied()), Applied())
    ensures UpToDate(|Applied()| - 1, LastTerm(Applied()), Gone())
  {
  }

  /** b and the others will vote for a. */
  lemma AllWill(s: Cluster, a: Id, b: Id, rest: set<Id>)
    requires Rests(s, a, 4, Applied(), 0) && AllIdle(s, rest, 3, Applied()) && AllIdle(s, {b}, 3, Gone())
    ensures Free(s, rest + {b})
    ensures forall v :: v in rest + {b} ==> v in s.nodes && WillVote(s.nodes[v], Campaigner(s.nodes[a], a))
  {
    Comparable();
    forall v | v in rest + {b} ensures v in s.nodes && WillVote(s.nodes[v], Campaigner(s.nodes[a], a)) {
      WillVoteIdle(s.nodes[v], 3, if v == b then Gone() else Applied(), Campaigner(s.nodes[a], a));
    }
  }

  lemma BackedB(s: Cluster, s': Cluster, a: Id, b: Id, vs: set<Id>)
    requires Rests(s, a, 4, Applied(), 0) && AllIdle(s, {b}, 3, Gone()) && b in vs
    requires Backed(s, s', Campaigner(s.nodes[a], a), a, vs) && SameExcept(s, s', vs + {a})
    ensures AllIdle(s', {b}, 5, Gone())
  {
    IdleVotes(s.nodes[b], 3, Gone(), 5, a);
    StillFree(s, s', vs + {a}, {b});
  }

  /** a is elected by b and the others. */
  lemma ElectA(cfg: Config, s: Cluster, a: Id, b: Id, rest: set<Id>) returns (s': Cluster)
    requires Alive(cfg, s, 5) && Rests(s, a, 4, Applied(), 0) && AllIdle(s, rest, 3, Applied()) && AllIdle(s, {b}, 3, Gone())
    requires a in cfg.members && rest + {b} <= cfg.members - {a} && |cfg.members| >= 2
    requires Majority(Self(cfg, a)) <= 1 + |rest + {b}|
    ensures Alive(cfg, s', 6) && SameExcept(s, s', rest + {b} + {a}) && KeepsMessages(s, s')
    ensures InCharge(s', a, 5, Applied(), 0) && Fresh(cfg, s', a, 1) && AllIdle(s', {b}, 5, Gone())
  {
    AtLeastTwo(cfg, a);
    AllWill(s, a, b, rest);
    LogsAre();
    hide TimelyReachable, MakeAppend, WillVote, LastTerm, Crowned, InCharge, Fresh, Majority, Free, AllIdle, Backed;
    hide Gone, Applied, KeepsMessages;
    var vs := rest + {b};
    s' := Elect(cfg, s, a, vs);
    TimelyOn(cfg, s, s');
    BackedB(s, s', a, b, vs);
    Enthroned(cfg, s, s', a, 5, Applied(), 0);
  }

  lemma RestSets(cfg: Config, a: Id, b: Id, c: Id)
    requires Trio(cfg, a, b, c)
    ensures var rest := cfg.members - {a} - {b} - {c};
            rest + {b} <= cfg.members - {a} && c !in rest + {b} + {a} && rest + {b} == cfg.members - {a} - {c}
  {
  }

  lemma RestOf(cfg: Config, a: Id, b: Id, c: Id)
    requires Trio(cfg, a, b, c)
    ensures var rest := cfg.members - {a} - {b} - {c};
            && rest + {b} <= cfg.members - {a} && c !in rest + {b} + {a}
            && Majority(Self(cfg, a)) <= 1 + |rest + {b}|
  {
    hide *;
    TrioSets(cfg, a, b, c);
    RestSets(cfg, a, b, c);
    TwoFewer(cfg.members, a, c);
    MajorityIs(cfg, a);
  }

  /** a leads with the entry it has applied, and its handler still waits. */
  ghost predicate Brink(cfg: Config, s: Cluster, a: Id, b: Id, c: Id) {
    && Alive(cfg, s, 6) && OneWaits(s, Handler(a, b))
    && InCharge(s, a, 5, Applied(), 0) && Fresh(cfg, s, a, 1)
    && Rests(s, c, 4, Applied(), 0) && AllIdle(s, {b}, 5, Gone())
  }

  lemma AtTheBrink(cfg: Config, a: Id, b: Id, c: Id) returns (s: Cluster)
    requires Trio(cfg, a, b, c)
    ensures Brink(cfg, s, a, b, c)
  {
    hide *;
    TrioFacts(cfg, a, b, c);
    RestOf(cfg, a, b, c);
    var rest := cfg.members - {a} - {b} - {c};
    var fourth := FourthTerm(cfg, a, b, c);
    s := ElectA(cfg, fourth, a, b, rest);
    RestsKept(fourth, s, rest + {b} + {a}, c, 4, Applied(), 0);
    StillWaits(fourth, s, rest + {b} + {a}, Handler(a, b));
    IsBrink(cfg, s, a, b, c);
  }

  lemma IsBrink(cfg: Config, s: Cluster, a: Id, b: Id, c: Id)
    requires Alive(cfg, s, 6) && OneWaits(s, Handler(a, b))
    requires InCharge(s, a, 5, Applied(), 0) && Fresh(cfg, s, a, 1)
    requires Rests(s, c, 4, Applied(), 0) && AllIdle(s, {b}, 5, Gone())
    ensures Brink(cfg, s, a, b, c)
  {
  }

  // ----- The handler goes on -----

  /** What the resumed handler makes of a's log, whatever follows its first entry. */
  lemma Replaces(cfg: Config, n: Node, a: Id, b: Id)
    requires !cfg.rechecksTerm && -1 <= n.commitIndex && -1 <= n.lastApplied && Applied() <= n.log
    ensures ContinueAppend(Self(cfg, a), n, Handler(a, b)).node == n.(log := Gone())
  {
    assert FirstConflict(n.log, 0, Gone(), 0);
    MergeConflict(n.log, 0, Gone(), 0);
    assert n.log[..0] + Gone()[0..] == Gone();
  }

  /** From now on no handler waits. */
  ghost predicate Resumed(s: Cluster, s': Cluster, a: Id) {
    && Calm(s') && s'.nodes.Keys == s.nodes.Keys && a in s.nodes && s'.nodes[a] == s.nodes[a].(log := Gone())
    && (forall v :: v in s.nodes && v != a ==> s'.nodes[v] == s.nodes[v])
    && KeepsMessages(s, s')
  }

  lemma ResumedIs(cfg: Config, s: Cluster, a: Id, b: Id)
    requires !cfg.rechecksTerm && OneWaits(s, Handler(a, b))
    requires a in s.nodes && InRange(s.nodes[a]) && Applied() <= s.nodes[a].log
    ensures Enabled(s, ResumeAppend(Handler(a, b)))
    ensures Resumed(s, Next(cfg, s, ResumeAppend(Handler(a, b))), a)
  {
    Replaces(cfg, s.nodes[a], a, b);
    hide ContinueAppend, Gone, Applied;
  }

  lemma ResumeOne(cfg: Config, s: Cluster, a: Id, b: Id) returns (s': Cluster)
    requires !cfg.rechecksTerm && Reachable(cfg, s) && OneWaits(s, Handler(a, b))
    requires a in s.nodes && InRange(s.nodes[a]) && Applied() <= s.nodes[a].log
    ensures Enabled(s, ResumeAppend(Handler(a, b))) && s' == Next(cfg, s, ResumeAppend(Handler(a, b)))
    ensures Reachable(cfg, s') && Resumed(s, s', a)
  {
    hide Reachable, Next, Resumed;
    ResumedIs(cfg, s, a, b);
    s' := Next(cfg, s, ResumeAppend(Handler(a, b)));
    ReachableNext(cfg, s, ResumeAppend(Handler(a, b)));
  }

  // ----- What comes of it -----

  lemma BrinkIs(cfg: Config, s: Cluster, a: Id, b: Id, c: Id)
    requires Brink(cfg, s, a, b, c)
    ensures Alive(cfg, s, 6) && TimelyReachable(cfg, s) && OneWaits(s, Handler(a, b))
    ensures InCharge(s, a, 5, Applied(), 0) && Fresh(cfg, s, a, 1) && Rests(s, c, 4, Applied(), 0)
    ensures a in s.nodes && InRange(s.nodes[a]) && Applied() <= s.nodes[a].log
  {
    hide TimelyReachable;
  }

  /** A reachable state and the one after it, in which the leader a has lost its entry. */
  lemma LeaderLosesEntry(cfg: Config) returns (s: Cluster, action: Action, s': Cluster, a: Id, b: Id, c: Id)
    requires |cfg.members| >= 3 && !cfg.rechecksTerm
    ensures Trio(cfg, a, b, c) && Brink(cfg, s, a, b, c) && Reachable(cfg, s)
    ensures action == ResumeAppend(Handler(a, b)) && BSends(a, b).to == a && BSends(a, b).term == 2
    ensures Enabled(s, action) && s' == Next(cfg, s, action) && Reachable(cfg, s') && Resumed(s, s', a)
  {
    a :| a in cfg.members;
    WithoutOne(cfg.members, a);
    b :| b in cfg.members - {a};
    WithoutOne(cfg.members - {a}, b);
    c :| c in cfg.members - {a} - {b};
    s := AtTheBrink(cfg, a, b, c);
    action := ResumeAppend(Handler(a, b));
    hide Reachable, TimelyReachable, Next, Enabled, Brink, Resumed, OneWaits;
    BrinkIs(cfg, s, a, b, c);
    TimelyIsReachable(cfg, s);
    s' := ResumeOne(cfg, s, a, b);
  }

  function ASends(a: Id, b: Id): AppendReq {
    AppendReq(5, a, b, 0, 2, [], 0)
  }

  lemma ABeats(cfg: Config, s: Cluster, s': Cluster, a: Id, b: Id)
    requires InCharge(s, a, 5, Applied(), 0) && Fresh(cfg, s, a, 1) && b in cfg.members - {a} && Resumed(s, s', a)
    ensures a in s'.nodes && MakeAppend(Self(cfg, a), s'.nodes[a], b) == ASends(a, b)
    ensures InRange(s'.nodes[a]) && s'.nodes[a].role == Leader && s'.nodes[a].applied == Applied()
    ensures s'.nodes[a].lastApplied == 0
  {
    assert Applied()[..1] == Applied();
  }

  lemma BHears(cfg: Config, n: Node, a: Id, b: Id)
    requires Idle(n, 5, Gone())
    ensures InRange(n) && Handled(cfg, n, ASends(a, b)).node.applied == Gone()
    ensures Handled(cfg, n, ASends(a, b)).node.lastApplied == 0
  {
    assert [] + Gone()[0..1] == Gone();
  }

  lemma BrinkB(cfg: Config, s: Cluster, s': Cluster, a: Id, b: Id, c: Id)
    requires Brink(cfg, s, a, b, c) && Resumed(s, s', a) && a != b
    ensures b in s'.nodes && Idle(s'.nodes[b], 5, Gone()) && !Busy(s', b)
  {
  }

  /** b applies another entry at index 0 than a and c. */
  lemma BAppliesGone(cfg: Config) returns (s: Cluster, a: Id, b: Id)
    requires |cfg.members| >= 3 && !cfg.rechecksTerm
    ensures Reachable(cfg, s) && a in s.nodes && b in s.nodes
    ensures s.nodes[a].applied == Applied() && s.nodes[b].applied == Gone()
    ensures s.nodes[a].lastApplied == 0 && s.nodes[b].lastApplied == 0
  {
    var before, action, lost, c;
    before, action, lost, a, b, c := LeaderLosesEntry(cfg);
    hide Reachable, TimelyReachable, Next, Enabled, MakeAppend, Handled, Brink, Resumed, Busy, Idle;
    AtLeastTwo(cfg, a);
    BrinkIs(cfg, before, a, b, c);
    ABeats(cfg, before, lost, a, b);
    BrinkB(cfg, before, lost, a, b, c);
    BeatIs(cfg, lost, a);
    var beaten := Next(cfg, lost, Heartbeats(a));
    ReachableNext(cfg, lost, Heartbeats(a));
    assert ASends(a, b) in beaten.appends;
    StillFree(lost, beaten, {}, {b});
    BHears(cfg, beaten.nodes[b], a, b);
    DeliverIs(cfg, beaten, ASends(a, b));
    s := Next(cfg, beaten, DeliverAppend(ASends(a, b)));
    ReachableNext(cfg, beaten, DeliverAppend(ASends(a, b)));
  }

  // ----- Logs that do not match -----

  function Longer(): Log { Applied() + [Entry(5, LegacySet("worker", "idle"))] }

  function Forked(): Log { Gone() + [Entry(5, LegacySet("worker", "busy"))] }

  function AToC(a: Id, c: Id): AppendReq {
    AppendReq(5, a, c, 0, 3, [Entry(5, LegacySet("worker", "idle"))], 0)
  }

  lemma ASendsC(cfg: Config, s: Cluster, s': Cluster, a: Id, c: Id)
    requires Fresh(cfg, s, a, 1) && InCharge(s', a, 5, Longer(), 0) && c in cfg.members - {a}
    requires s'.nodes[a].nextIndex == s.nodes[a].nextIndex
    ensures MakeAppend(Self(cfg, a), s'.nodes[a], c) == AToC(a, c)
  {
  }

  lemma CStores(cfg: Config, n: Node, a: Id, c: Id)
    requires n.role != Leader && Has(n, 4, Applied(), 0)
    ensures InRange(n) && Handled(cfg, n, AToC(a, c)).node.log == Longer()
    ensures Handled(cfg, n, AToC(a, c)).node.currentTerm == 5 && Handled(cfg, n, AToC(a, c)).node.role == Follower
    ensures Handled(cfg, n, AToC(a, c)).reply == AppendReply(AToC(a, c), 5, true, None)
  {
    MergeAtEnd(Applied(), AToC(a, c).entries);
  }

  lemma CStoresIt(cfg: Config, s: Cluster, a: Id, c: Id) returns (s': Cluster)
    requires Alive(cfg, s, 6) && Rests(s, c, 4, Applied(), 0) && AToC(a, c) in s.appends && !Busy(s, c)
    ensures Alive(cfg, s', 6) && SameExcept(s, s', {c}) && KeepsMessages(s, s')
    ensures c in s'.nodes && s'.nodes[c].log == Longer() && s'.nodes[c].currentTerm == 5 && s'.nodes[c].role == Follower
    ensures AppendReply(AToC(a, c), 5, true, None) in s'.appendReplies
  {
    hide TimelyReachable, Next, Handled;
    CStores(cfg, s.nodes[c], a, c);
    s' := DeliverOne(cfg, s, AToC(a, c));
    TimelyOn(cfg, s, s');
  }

  lemma LongerIs()
    ensures Applied() + [Entry(5, LegacySet("worker", "idle"))] == Longer() && Applied() <= Longer()
    ensures |Longer()| == 2 && |Forked()| == 2 && Longer()[1].term == Forked()[1].term && Longer()[..2] != Forked()[..2]
  {
  }

  /** c has stored a second entry of a's term, and a knows. */
  ghost predicate Second(s: Cluster, a: Id, c: Id) {
    && a in s.nodes && c in s.nodes && InRange(s.nodes[a])
    && s.nodes[a].role == Leader && s.nodes[a].currentTerm == 5 && s.nodes[a].log == Longer()
    && c in s.nodes[a].nextIndex && s.nodes[a].nextIndex[c] == 2
    && c in s.nodes[a].matchIndex && s.nodes[a].matchIndex[c] == 1
    && s.nodes[c].log == Longer() && s.nodes[c].currentTerm == 5 && s.nodes[c].role == Follower
  }

  lemma NotesReply(me: Member, n: Node, r: AppendReply)
    requires InRange(n) && n.role == Leader && n.currentTerm == r.req.term && r.term <= r.req.term
    requires r.success && r.req.entries != []
    ensures var n' := OnAppendReply(me, n, r);
            && InRange(n') && n'.role == Leader && n'.currentTerm == n.currentTerm && n'.log == n.log
            && r.req.to in n'.nextIndex && n'.nextIndex[r.req.to] == r.req.End()
            && r.req.to in n'.matchIndex && n'.matchIndex[r.req.to] == r.req.End() - 1
  {
    hide ScanFrom;
  }

  lemma SecondNoted(cfg: Config, s: Cluster, a: Id, c: Id) returns (s': Cluster)
    requires Alive(cfg, s, 6) && InCharge(s, a, 5, Longer(), 0) && a != c
    requires c in s.nodes && s.nodes[c].log == Longer() && s.nodes[c].currentTerm == 5 && s.nodes[c].role == Follower
    requires AppendReply(AToC(a, c), 5, true, None) in s.appendReplies
    ensures TimelyReachable(cfg, s') && SameExcept(s, s', {a}) && Second(s', a, c)
  {
    hide TimelyReachable, Next, OnAppendReply;
    NotesReply(Self(cfg, a), s.nodes[a], AppendReply(AToC(a, c), 5, true, None));
    s' := ReturnOne(cfg, s, AppendReply(AToC(a, c), 5, true, None));
    TimelyOn(cfg, s, s');
  }

  /** Before its handler goes on, a has brought c a second entry of its term. */
  lemma SecondEntry(cfg: Config, s: Cluster, a: Id, b: Id, c: Id) returns (s': Cluster)
    requires Trio(cfg, a, b, c) && Brink(cfg, s, a, b, c)
    ensures TimelyReachable(cfg, s') && OneWaits(s', Handler(a, b)) && Second(s', a, c)
  {
    hide *;
    TrioFacts(cfg, a, b, c);
    BrinkIs(cfg, s, a, b, c);
    LongerIs();
    var written := WriteIdle(cfg, s, a, 5, Applied(), 0, LegacySet("worker", "idle"));
    ASendsC(cfg, s, written, a, c);
    RestsKept(s, written, {a}, c, 4, Applied(), 0);
    StillWaits(s, written, {a}, Handler(a, b));
    OthersFree(written, a, b, c);
    var stored := CStoresIt(cfg, written, a, c);
    InChargeKept(written, stored, {c}, a, 5, Longer(), 0);
    s' := SecondNoted(cfg, stored, a, c);
    StillWaits(written, stored, {c}, Handler(a, b));
    StillWaits(stored, s', {a}, Handler(a, b));
  }

  lemma SecondIs(s: Cluster, s': Cluster, a: Id, c: Id)
    requires Second(s, a, c) && Resumed(s, s', a) && a != c
    ensures a in s'.nodes && c in s'.nodes && s'.nodes[a].log == Gone() && |Gone()| == 1 && s'.nodes[c].log == Longer()
    ensures s'.nodes[a].role == Leader && s'.nodes[a].currentTerm == 5
    ensures c in s'.nodes[a].nextIndex && s'.nodes[a].nextIndex[c] == 2
    ensures c in s'.nodes[a].matchIndex && s'.nodes[a].matchIndex[c] == 1
    ensures s'.nodes[c].currentTerm == 5 && s'.nodes[c].role == Follower && !Busy(s', c)
  {
  }

  /** The leader a keeps indices for c that its log does not reach any more. */
  lemma IndicesPastLog(cfg: Config) returns (s: Cluster, a: Id, c: Id)
    requires |cfg.members| >= 3 && !cfg.rechecksTerm
    ensures Reachable(cfg, s) && c in cfg.members - {a} && a in s.nodes && c in s.nodes && !Busy(s, c)
    ensures s.nodes[a].role == Leader && s.nodes[a].currentTerm == 5 && s.nodes[a].log == Gone() && |Gone()| == 1
    ensures c in s.nodes[a].nextIndex && s.nodes[a].nextIndex[c] == 2
    ensures c in s.nodes[a].matchIndex && s.nodes[a].matchIndex[c] == 1
    ensures s.nodes[c].log == Longer() && s.nodes[c].currentTerm == 5 && s.nodes[c].role == Follower
  {
    var before, action, lost, b;
    before, action, lost, a, b, c := LeaderLosesEntry(cfg);
    hide Reachable, TimelyReachable, Next, Enabled, Brink, Second, Resumed, OneWaits, Busy;
    var second := SecondEntry(cfg, before, a, b, c);
    SecondParts(second, a, c);
    TimelyIsReachable(cfg, second);
    s := ResumeOne(cfg, second, a, b);
    SecondIs(second, s, a, c);
  }

  lemma SecondParts(s: Cluster, a: Id, c: Id)
    requires Second(s, a, c)
    ensures a in s.nodes && InRange(s.nodes[a]) && Applied() <= s.nodes[a].log
  {
  }

  /** a and c hold different logs up to index 1, with an entry of term 5 there. */
  lemma LogsFork(cfg: Config) returns (s: Cluster, a: Id, c: Id)
    requires |cfg.members| >= 3 && !cfg.rechecksTerm
    ensures Reachable(cfg, s) && c in cfg.members - {a} && a in s.nodes && c in s.nodes && !Busy(s, c)
    ensures s.nodes[a].log == Forked() && s.nodes[c].log == Longer()
    ensures s.nodes[a].role == Leader && s.nodes[a].currentTerm == 5 && NextIndex(s.nodes[a], c) == 2
    ensures s.nodes[c].currentTerm == 5 && s.nodes[c].role == Follower
  {
    var before;
    before, a, c := IndicesPastLog(cfg);
    ReachableSettled(cfg, before, a);
    hide Reachable, Next, MakeAppend, Busy;
    WriteIs(cfg, before, a, LegacySet("worker", "busy"));
    s := Next(cfg, before, Submit(a, LegacySet("worker", "busy")));
    ReachableNext(cfg, before, Submit(a, LegacySet("worker", "busy")));
    StillFree(before, s, {a}, {c});
    assert Gone() + [Entry(5, LegacySet("worker", "busy"))] == Forked();
  }
}
