/**
 The commit scan without a role check is unsafe from five nodes on: a run, for every such
 cluster, in which two nodes apply different entries at the same index.

 Term by term (f, b, g are three members, a is any of the others or g):
   1  b leads, all store [e1]; b commits it, the others do not know
   2  f leads and appends two entries that it cannot replicate
   3  b leads and appends an entry that it cannot replicate
   4  f leads again and replicates its old entries to every a: matchIndex is 2 for all of
      them, but nothing of term 4 is there to commit
   5  b leads again and replaces f's old entries; its commit index makes f scan, and f's
      left-over matchIndex commits index 2, which only f and b hold
   6  g leads with f's old entries and commits another log
 */
module LargeClusters {
  import opened Commands
  import opened RaftTypes
  import opened LogMerge
  import opened Handlers
  import opened Clusters
  import opened VoteSteps
  import opened Scenario
  import opened Phases

  function CommandOf(t: nat): Command {
    LegacySet("worker", if t == 2 then "idle" else "busy")
  }

  function E(t: nat): Entry {
    Entry(t, CommandOf(t))
  }

  ghost predicate Cast(cfg: Config, f: Id, b: Id, g: Id) {
    && ValidConfig(cfg) && !cfg.leaderOnlyScan && |cfg.members| >= 5
    && f in cfg.members && b in cfg.members && g in cfg.members && f != b && b != g && f != g
  }

  /** Everyone but f and b. */
  function Others(cfg: Config, f: Id, b: Id): set<Id> {
    cfg.members - {f} - {b}
  }

  lemma Sizes(cfg: Config, f: Id, b: Id, g: Id)
    requires Cast(cfg, f, b, g)
    ensures |Others(cfg, f, b)| == |cfg.members| - 2 && |Others(cfg, f, b) - {g}| == |cfg.members| - 3
  {
    WithoutOne(cfg.members, f);
    WithoutOne(cfg.members - {f}, b);
    WithoutOne(Others(cfg, f, b), g);
  }

  lemma MajoritySize(cfg: Config, c: Id)
    requires c in cfg.members && |cfg.members| >= 5
    ensures 1 < Majority(Self(cfg, c)) <= |cfg.members| - 2 && cfg.members - {c} != {}
  {
    SelfMajority(cfg, c);
    WithoutOne(cfg.members, c);
    assert Self(cfg, c).peers == cfg.members - {c};
  }

  // ----- The cast and the logs -----

  lemma OthersFacts(cfg: Config, f: Id, b: Id, g: Id)
    requires Cast(cfg, f, b, g)
    ensures f in cfg.members && b in cfg.members && g in cfg.members && |cfg.members| >= 5 && !cfg.leaderOnlyScan
    ensures var vs := Others(cfg, f, b);
            && vs <= cfg.members - {b} && vs <= cfg.members - {f} && vs <= cfg.members && vs != {}
            && f !in vs && b !in vs && g in vs && g != f && g != b && f != b
            && vs - {g} <= cfg.members - {g} && vs - {g} != {} && f in cfg.members - {b} && b in cfg.members - {f}
    ensures forall c :: c in cfg.members ==>
              Majority(Self(cfg, c)) <= 1 + |Others(cfg, f, b)| && Majority(Self(cfg, c)) <= 1 + |Others(cfg, f, b) - {g}|
  {
    Sizes(cfg, f, b, g);
    forall c | c in cfg.members ensures Majority(Self(cfg, c)) <= |cfg.members| - 2 {
      MajoritySize(cfg, c);
    }
  }

  lemma InitIdle(cfg: Config, vs: set<Id>)
    requires vs <= cfg.members
    ensures AllIdle(Init(cfg), vs, 0, []) && Alive(cfg, Init(cfg), 1) && Calm(Init(cfg))
    ensures forall c :: c in cfg.members ==> Waits(Init(cfg), c, 0, [], -1)
  {
    TimelyInit(cfg);
  }

  /** What everybody stores in term 1. */
  function Shared(): Log { [E(1)] }

  /** What f appends in term 2 and replicates in term 4. */
  function Old(): Log { [E(1), E(2), E(2)] }

  /** What b has instead from term 3 on. */
  function Rival(): Log { [E(1), E(3)] }

  /** What f applies in term 5. */
  function Stolen(): Log { [E(1), E(3), E(5)] }

  /** What g applies in term 6. */
  function Kept(): Log { [E(1), E(2), E(2), E(6)] }

  lemma Comparisons()
    ensures UpToDate(|Shared()| - 1, LastTerm(Shared()), Shared())
    ensures UpToDate(|Old()| - 1, LastTerm(Old()), Shared())
    ensures UpToDate(|Rival()| - 1, LastTerm(Rival()), Old())
    ensures UpToDate(|Old()| - 1, LastTerm(Old()), Old())
  {
  }

  lemma Extensions()
    ensures [] + [Entry(1, CommandOf(1))] == Shared()
    ensures Shared() + [Entry(2, CommandOf(2))] + [Entry(2, CommandOf(2))] == Old()
    ensures Shared() + [Entry(3, CommandOf(3))] == Rival()
    ensures Rival() + [Entry(5, CommandOf(5))] == Stolen()
    ensures Old() + [Entry(6, CommandOf(6))] == Kept()
  {
  }

  // ----- Term 1 -----

  function Send1(b: Id): AppendReq {
    AppendReq(1, b, b, -1, 0, Shared(), -1)
  }

  lemma Sent1(cfg: Config, s: Cluster, s': Cluster, b: Id, q: Id)
    requires InCharge(s', b, 1, Shared(), -1) && Fresh(cfg, s, b, 0) && s'.nodes[b].nextIndex == s.nodes[b].nextIndex
    requires q in cfg.members - {b}
    ensures MakeAppend(Self(cfg, b), s'.nodes[b], q) == To(Send1(b), q)
  {
  }

  lemma Send1Facts(b: Id)
    ensures Send1(b).term == 1 && Send1(b).leader == b && Send1(b).entries != [] && Send1(b).End() == |Shared()|
    ensures Send1(b).leaderCommit == -1 && PrevMatches([], Send1(b)) && Send1(b).First() == 0
    ensures Merge([], Send1(b).First(), Send1(b).entries) == Shared()
    ensures LastTerm(Shared()) == 1 && |Shared()| == 1
  {
    MergeAtEnd([], Shared());
  }

  lemma Elect1(cfg: Config, f: Id, b: Id, g: Id) returns (s: Cluster)
    requires Cast(cfg, f, b, g)
    ensures Alive(cfg, s, 2) && Calm(s) && AllIdle(s, Others(cfg, f, b), 1, []) && AllIdle(s, {f}, 0, [])
    ensures InCharge(s, b, 1, [], -1) && Fresh(cfg, s, b, 0)
  {
    hide *;
    var vs := Others(cfg, f, b);
    OthersFacts(cfg, f, b, g);
    InitIdle(cfg, vs);
    InitIdle(cfg, {f});
    WaitsHas(Init(cfg), b, 0, [], -1);
    EmptyUpToDate();
    s := ElectIdle(cfg, Init(cfg), b, vs, 0, [], 1, [], -1);
    IdleKept(Init(cfg), s, vs + {b}, {f}, 0, []);
  }

  lemma EmptyUpToDate()
    ensures var none: Log := []; UpToDate(|none| - 1, LastTerm(none), none)
  {
  }

  lemma Begin1(cfg: Config, f: Id, b: Id, g: Id) returns (s: Cluster)
    requires Cast(cfg, f, b, g)
    ensures Alive(cfg, s, 2) && Calm(s) && AllIdle(s, Others(cfg, f, b), 1, []) && AllIdle(s, {f}, 0, [])
    ensures InCharge(s, b, 1, Shared(), -1)
    ensures forall q :: q in cfg.members - {b} ==> To(Send1(b), q) in s.appends
  {
    hide *;
    OthersFacts(cfg, f, b, g);
    var elected := Elect1(cfg, f, b, g);
    s := WriteIdle(cfg, elected, b, 1, [], -1, CommandOf(1));
    IdleKept(elected, s, {b}, {f}, 0, []);
    IdleKept(elected, s, {b}, Others(cfg, f, b), 1, []);
    Extensions();
    forall q | q in cfg.members - {b} ensures To(Send1(b), q) in s.appends {
      Sent1(cfg, elected, s, b, q);
      assert MakeAppend(Self(cfg, b), s.nodes[b], q) in s.appends;
    }
  }

  lemma Store1(cfg: Config, f: Id, b: Id, g: Id) returns (s: Cluster)
    requires Cast(cfg, f, b, g)
    ensures Alive(cfg, s, 2) && Calm(s) && AllIdle(s, Others(cfg, f, b), 1, Shared()) && AllIdle(s, {f}, 1, Shared())
    ensures InCharge(s, b, 1, Shared(), -1)
    ensures forall q :: q in Others(cfg, f, b) ==> AppendReply(To(Send1(b), q), 1, true, None) in s.appendReplies
  {
    hide *;
    var vs := Others(cfg, f, b);
    OthersFacts(cfg, f, b, g);
    Send1Facts(b);
    var begun := Begin1(cfg, f, b, g);
    var half := StoreIdle(cfg, begun, Send1(b), vs, 1, [], Shared());
    KeptMessages(begun, half);
    IdleKept(begun, half, vs, {f}, 0, []);
    InChargeKept(begun, half, vs, b, 1, Shared(), -1);
    s := StoreIdle(cfg, half, Send1(b), {f}, 0, [], Shared());
    KeptMessages(half, s);
    IdleKept(half, s, {f}, vs, 1, Shared());
    InChargeKept(half, s, {f}, b, 1, Shared(), -1);
  }

  lemma Term1(cfg: Config, f: Id, b: Id, g: Id) returns (s: Cluster)
    requires Cast(cfg, f, b, g)
    ensures Alive(cfg, s, 2) && Calm(s) && AllIdle(s, Others(cfg, f, b), 1, Shared()) && AllIdle(s, {f}, 1, Shared())
    ensures InCharge(s, b, 1, Shared(), 0)
  {
    hide *;
    OthersFacts(cfg, f, b, g);
    Send1Facts(b);
    var stored := Store1(cfg, f, b, g);
    s := CommitIdle(cfg, stored, Send1(b), Others(cfg, f, b), Shared(), -1);
    IdleKept(stored, s, {b}, Others(cfg, f, b), 1, Shared());
    IdleKept(stored, s, {b}, {f}, 1, Shared());
  }

  // ----- Terms 2 and 3 -----

  lemma Elect2(cfg: Config, f: Id, b: Id, g: Id) returns (s: Cluster)
    requires Cast(cfg, f, b, g)
    ensures Alive(cfg, s, 3) && Calm(s) && AllIdle(s, Others(cfg, f, b), 2, Shared())
    ensures InCharge(s, f, 2, Shared(), -1) && Waits(s, b, 2, Shared(), 0)
  {
    hide *;
    var vs := Others(cfg, f, b);
    OthersFacts(cfg, f, b, g);
    var before := Term1(cfg, f, b, g);
    WaitsIdle(before, f, 1, Shared());
    WaitsHas(before, f, 1, Shared(), -1);
    Comparisons();
    var elected := ElectIdle(cfg, before, f, vs, 1, Shared(), 2, Shared(), -1);
    InChargeKept(before, elected, vs + {f}, b, 1, Shared(), 0);
    CalmFree(elected, b);
    s := DeposeIdle(cfg, elected, b, 1, Shared(), 0, VoteReq(2, f, b, |Shared()| - 1, LastTerm(Shared())), 3);
    IdleKept(elected, s, {b}, vs, 2, Shared());
    InChargeKept(elected, s, {b}, f, 2, Shared(), -1);
  }

  lemma Term2(cfg: Config, f: Id, b: Id, g: Id) returns (s: Cluster)
    requires Cast(cfg, f, b, g)
    ensures Alive(cfg, s, 3) && Calm(s) && AllIdle(s, Others(cfg, f, b), 2, Shared())
    ensures InCharge(s, f, 2, Old(), -1) && Waits(s, b, 2, Shared(), 0)
  {
    hide *;
    OthersFacts(cfg, f, b, g);
    var before := Elect2(cfg, f, b, g);
    var once := WriteIdle(cfg, before, f, 2, Shared(), -1, CommandOf(2));
    s := WriteIdle(cfg, once, f, 2, Shared() + [Entry(2, CommandOf(2))], -1, CommandOf(2));
    Extensions();
    IdleKept(before, once, {f}, Others(cfg, f, b), 2, Shared());
    IdleKept(once, s, {f}, Others(cfg, f, b), 2, Shared());
    WaitsKept(before, once, {f}, b, 2, Shared(), 0);
    WaitsKept(once, s, {f}, b, 2, Shared(), 0);
  }

  lemma Elect3(cfg: Config, f: Id, b: Id, g: Id) returns (s: Cluster)
    requires Cast(cfg, f, b, g)
    ensures Alive(cfg, s, 4) && Calm(s) && AllIdle(s, Others(cfg, f, b), 3, Shared())
    ensures InCharge(s, b, 3, Shared(), 0) && Waits(s, f, 3, Old(), -1)
  {
    hide *;
    var vs := Others(cfg, f, b);
    OthersFacts(cfg, f, b, g);
    var before := Term2(cfg, f, b, g);
    WaitsHas(before, b, 2, Shared(), 0);
    Comparisons();
    var elected := ElectIdle(cfg, before, b, vs, 2, Shared(), 3, Shared(), 0);
    InChargeKept(before, elected, vs + {b}, f, 2, Old(), -1);
    CalmFree(elected, f);
    s := DeposeIdle(cfg, elected, f, 2, Old(), -1, VoteReq(3, b, f, |Shared()| - 1, LastTerm(Shared())), 4);
    IdleKept(elected, s, {f}, vs, 3, Shared());
    InChargeKept(elected, s, {f}, b, 3, Shared(), 0);
  }

  lemma Term3(cfg: Config, f: Id, b: Id, g: Id) returns (s: Cluster)
    requires Cast(cfg, f, b, g)
    ensures Alive(cfg, s, 4) && Calm(s) && AllIdle(s, Others(cfg, f, b), 3, Shared())
    ensures InCharge(s, b, 3, Rival(), 0) && Waits(s, f, 3, Old(), -1)
  {
    hide *;
    OthersFacts(cfg, f, b, g);
    var before := Elect3(cfg, f, b, g);
    s := WriteIdle(cfg, before, b, 3, Shared(), 0, CommandOf(3));
    Extensions();
    IdleKept(before, s, {b}, Others(cfg, f, b), 3, Shared());
    WaitsKept(before, s, {b}, f, 3, Old(), -1);
  }

  // ----- Term 4 -----

  lemma Elect4(cfg: Config, f: Id, b: Id, g: Id) returns (s: Cluster)
    requires Cast(cfg, f, b, g)
    ensures Alive(cfg, s, 5) && Calm(s) && AllIdle(s, Others(cfg, f, b), 4, Shared())
    ensures InCharge(s, f, 4, Old(), -1) && Fresh(cfg, s, f, |Old()|) && InCharge(s, b, 3, Rival(), 0)
    ensures forall q :: q in cfg.members - {f} ==>
              && MakeAppend(Self(cfg, f), s.nodes[f], q) in s.appends
              && VoteReq(4, f, q, |Old()| - 1, LastTerm(Old())) in s.voteReqs
  {
    hide *;
    var vs := Others(cfg, f, b);
    OthersFacts(cfg, f, b, g);
    var before := Term3(cfg, f, b, g);
    WaitsHas(before, f, 3, Old(), -1);
    Comparisons();
    s := ElectIdle(cfg, before, f, vs, 3, Shared(), 4, Old(), -1);
    InChargeKept(before, s, vs + {f}, b, 3, Rival(), 0);
  }

  /** The empty request at f's nextIndex, which every a refuses. */
  function Probe4(f: Id): AppendReq {
    AppendReq(4, f, f, 2, 2, [], -1)
  }

  lemma Sent4(cfg: Config, s: Cluster, f: Id, q: Id)
    requires InCharge(s, f, 4, Old(), -1) && Fresh(cfg, s, f, |Old()|) && q in cfg.members - {f}
    ensures MakeAppend(Self(cfg, f), s.nodes[f], q) == To(Probe4(f), q)
  {
  }

  lemma RefusesProbe4(cfg: Config, n: Node, f: Id, q: Id)
    requires Idle(n, 4, Shared())
    ensures Handled(cfg, n, To(Probe4(f), q)).node == n
    ensures Handled(cfg, n, To(Probe4(f), q)).reply == AppendReply(To(Probe4(f), q), 4, false, Some(1))
  {
  }

  lemma Probe4All(cfg: Config, s: Cluster, f: Id, vs: set<Id>) returns (s': Cluster)
    requires Alive(cfg, s, 5) && Calm(s) && AllIdle(s, vs, 4, Shared()) && vs <= cfg.members
    requires forall q :: q in vs ==> To(Probe4(f), q) in s.appends
    ensures Alive(cfg, s', 5) && Calm(s') && SameExcept(s, s', {}) && KeepsMessages(s, s')
    ensures forall q :: q in vs ==> AppendReply(To(Probe4(f), q), 4, false, Some(1)) in s'.appendReplies
  {
    hide TimelyReachable, Next, Handled;
    s' := DeliverAll(cfg, s, Probe4(f), vs);
    TimelyOn(cfg, s, s');
    forall q | q in vs
      ensures s'.nodes[q] == s.nodes[q] && AppendReply(To(Probe4(f), q), 4, false, Some(1)) in s'.appendReplies
    {
      RefusesProbe4(cfg, s.nodes[q], f, q);
    }
  }

  lemma Refused4(cfg: Config, f: Id, b: Id, g: Id) returns (s: Cluster)
    requires Cast(cfg, f, b, g)
    ensures Alive(cfg, s, 5) && Calm(s) && AllIdle(s, Others(cfg, f, b), 4, Shared())
    ensures InCharge(s, f, 4, Old(), -1) && Fresh(cfg, s, f, |Old()|) && Waits(s, b, 4, Rival(), 0)
    ensures forall q :: q in Others(cfg, f, b) ==> AppendReply(To(Probe4(f), q), 4, false, Some(1)) in s.appendReplies
  {
    hide *;
    var vs := Others(cfg, f, b);
    OthersFacts(cfg, f, b, g);
    var before := Elect4(cfg, f, b, g);
    AliveHas(cfg, before, 5, f);
    forall q | q in vs ensures To(Probe4(f), q) in before.appends {
      Sent4(cfg, before, f, q);
      assert MakeAppend(Self(cfg, f), before.nodes[f], q) in before.appends;
    }
    var probed := Probe4All(cfg, before, f, vs);
    KeptMessages(before, probed);
    InChargeKept(before, probed, {}, b, 3, Rival(), 0);
    var req := VoteReq(4, f, b, |Old()| - 1, LastTerm(Old()));
    assert req in before.voteReqs;
    CalmFree(probed, b);
    s := DeposeIdle(cfg, probed, b, 3, Rival(), 0, req, 5);
    Refused4Kept(cfg, before, probed, s, f, b, vs);
    KeptMessages(probed, s);
  }

  lemma Refused4Kept(cfg: Config, s: Cluster, s1: Cluster, s2: Cluster, f: Id, b: Id, vs: set<Id>)
    requires SameExcept(s, s1, {}) && SameExcept(s1, s2, {b}) && b !in vs && b != f
    requires AllIdle(s, vs, 4, Shared()) && InCharge(s, f, 4, Old(), -1) && Fresh(cfg, s, f, |Old()|)
    ensures AllIdle(s2, vs, 4, Shared()) && InCharge(s2, f, 4, Old(), -1) && Fresh(cfg, s2, f, |Old()|)
  {
  }

  function Send4(f: Id): AppendReq {
    AppendReq(4, f, f, 0, 1, [E(2), E(2)], -1)
  }

  lemma BackUp4(cfg: Config, s: Cluster, f: Id, vs: set<Id>) returns (s': Cluster)
    requires Alive(cfg, s, 5) && Calm(s) && InCharge(s, f, 4, Old(), -1) && Fresh(cfg, s, f, |Old()|)
    requires vs <= cfg.members - {f}
    requires forall q :: q in vs ==> AppendReply(To(Probe4(f), q), 4, false, Some(1)) in s.appendReplies
    ensures Alive(cfg, s', 5) && Calm(s') && SameExcept(s, s', {f}) && KeepsMessages(s, s') && InCharge(s', f, 4, Old(), -1)
    ensures f in s'.nodes && forall q :: q in vs ==> q in s'.nodes[f].nextIndex && s'.nodes[f].nextIndex[q] == 1
  {
    hide TimelyReachable, Next;
    s' := BackUpAll(cfg, s, Probe4(f), 4, 1, vs);
    TimelyOn(cfg, s, s');
  }

  lemma Sent4Again(cfg: Config, s: Cluster, f: Id, q: Id)
    requires InCharge(s, f, 4, Old(), -1) && q in s.nodes[f].nextIndex && s.nodes[f].nextIndex[q] == 1
    ensures MakeAppend(Self(cfg, f), s.nodes[f], q) == To(Send4(f), q)
  {
  }

  lemma Resend4(cfg: Config, f: Id, b: Id, g: Id) returns (s: Cluster)
    requires Cast(cfg, f, b, g)
    ensures Alive(cfg, s, 5) && Calm(s) && AllIdle(s, Others(cfg, f, b), 4, Shared())
    ensures InCharge(s, f, 4, Old(), -1) && Waits(s, b, 4, Rival(), 0)
    ensures forall q :: q in Others(cfg, f, b) ==> To(Send4(f), q) in s.appends
  {
    hide *;
    var vs := Others(cfg, f, b);
    OthersFacts(cfg, f, b, g);
    var refused := Refused4(cfg, f, b, g);
    var backed := BackUp4(cfg, refused, f, vs);
    s := BeatIdle(cfg, backed, f, 4, Old(), -1);
    forall q | q in vs ensures To(Send4(f), q) in s.appends {
      Sent4Again(cfg, backed, f, q);
      assert MakeAppend(Self(cfg, f), s.nodes[f], q) in s.appends;
    }
    IdleKept(refused, backed, {f}, vs, 4, Shared());
    WaitsKept(refused, backed, {f}, b, 4, Rival(), 0);
    IdleKept(backed, s, {}, vs, 4, Shared());
    WaitsKept(backed, s, {}, b, 4, Rival(), 0);
    InChargeKept(backed, s, {}, f, 4, Old(), -1);
  }

  lemma Send4Facts(f: Id)
    ensures Send4(f).term == 4 && Send4(f).leader == f && Send4(f).entries != [] && Send4(f).End() == |Old()|
    ensures Send4(f).leaderCommit == -1 && PrevMatches(Shared(), Send4(f)) && Send4(f).First() == 1
    ensures Merge(Shared(), Send4(f).First(), Send4(f).entries) == Old()
  {
    MergeAtEnd(Shared(), Send4(f).entries);
  }

  /** f has heard that all of vs hold its old entries; that commits nothing in term 4. */
  ghost predicate Remembers(s: Cluster, f: Id, vs: set<Id>) {
    f in s.nodes && forall q :: q in vs ==> q in s.nodes[f].matchIndex && s.nodes[f].matchIndex[q] == 2
  }

  lemma GatherOld(cfg: Config, s: Cluster, f: Id, vs: set<Id>) returns (s': Cluster)
    requires Alive(cfg, s, 5) && Calm(s) && InCharge(s, f, 4, Old(), -1)
    requires forall q :: q in vs ==> AppendReply(To(Send4(f), q), 4, true, None) in s.appendReplies
    ensures Alive(cfg, s', 5) && Calm(s') && SameExcept(s, s', {f}) && KeepsMessages(s, s')
    ensures InCharge(s', f, 4, Old(), -1) && Remembers(s', f, vs)
  {
    hide TimelyReachable, Next, Committable;
    Send4Facts(f);
    s' := GatherAll(cfg, s, Send4(f), vs);
    TimelyOn(cfg, s, s');
  }

  lemma Term4(cfg: Config, f: Id, b: Id, g: Id) returns (s: Cluster)
    requires Cast(cfg, f, b, g)
    ensures Alive(cfg, s, 5) && Calm(s) && AllIdle(s, Others(cfg, f, b), 4, Old()) && Waits(s, b, 4, Rival(), 0)
    ensures InCharge(s, f, 4, Old(), -1) && Remembers(s, f, Others(cfg, f, b))
  {
    hide *;
    var vs := Others(cfg, f, b);
    OthersFacts(cfg, f, b, g);
    Send4Facts(f);
    var sent := Resend4(cfg, f, b, g);
    var stored := StoreIdle(cfg, sent, Send4(f), vs, 4, Shared(), Old());
    InChargeKept(sent, stored, vs, f, 4, Old(), -1);
    WaitsKept(sent, stored, vs, b, 4, Rival(), 0);
    s := GatherOld(cfg, stored, f, vs);
    IdleKept(stored, s, {f}, vs, 4, Old());
    WaitsKept(stored, s, {f}, b, 4, Rival(), 0);
  }
}
