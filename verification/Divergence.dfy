/**
 Terms 5 and 6 of the run of LargeClusters, and what comes of them: in every cluster of five
 or more whose scan does not look at the role, two nodes apply different entries at one
 index, a later leader lacks a committed entry, and a committed entry is overwritten.
 */
module Divergence {
  import opened Commands
  import opened RaftTypes
  import opened LogMerge
  import opened Handlers
  import opened Clusters
  import opened Invariants
  import opened Scenario
  import opened Phases
  import opened LargeClusters

  // ----- Term 5 -----

  function Probe5(f: Id, b: Id): AppendReq {
    AppendReq(5, b, f, 1, 3, [], 0)
  }

  function Send5(f: Id, b: Id): AppendReq {
    AppendReq(5, b, f, 0, 1, [E(3), E(5)], 0)
  }

  lemma RemembersKept(s: Cluster, s': Cluster, f: Id, vs: set<Id>)
    requires Remembers(s, f, vs) && f in s'.nodes && s'.nodes[f].matchIndex == s.nodes[f].matchIndex
    ensures Remembers(s', f, vs)
  {
  }

  lemma Sent5(cfg: Config, s: Cluster, f: Id, b: Id)
    requires InCharge(s, b, 5, Rival(), 0) && Fresh(cfg, s, b, |Rival()|) && f in cfg.members - {b}
    ensures MakeAppend(Self(cfg, b), s.nodes[b], f) == Probe5(f, b)
  {
  }

  lemma Elect5(cfg: Config, f: Id, b: Id, g: Id) returns (s: Cluster)
    requires Cast(cfg, f, b, g)
    ensures Alive(cfg, s, 6) && Calm(s) && AllIdle(s, Others(cfg, f, b), 5, Old())
    ensures InCharge(s, b, 5, Rival(), 0) && Fresh(cfg, s, b, |Rival()|) && Probe5(f, b) in s.appends
    ensures InCharge(s, f, 4, Old(), -1) && Remembers(s, f, Others(cfg, f, b))
  {
    hide *;
    var vs := Others(cfg, f, b);
    OthersFacts(cfg, f, b, g);
    var before := Term4(cfg, f, b, g);
    WaitsHas(before, b, 4, Rival(), 0);
    Comparisons();
    s := ElectIdle(cfg, before, b, vs, 4, Old(), 5, Rival(), 0);
    AliveHas(cfg, before, 5, f);
    AliveHas(cfg, s, 6, f);
    InChargeKept(before, s, vs + {b}, f, 4, Old(), -1);
    RemembersKept(before, s, f, vs);
    Sent5(cfg, s, f, b);
  }

  lemma HandlesProbe5(cfg: Config, n: Node, f: Id, b: Id)
    requires n.role == Leader && Has(n, 4, Old(), -1)
    ensures Handled(cfg, n, Probe5(f, b)).node == BecomeFollower(n, 5)
    ensures Handled(cfg, n, Probe5(f, b)).reply == AppendReply(Probe5(f, b), 4, false, Some(1))
  {
  }

  lemma DeliverProbe5(cfg: Config, s: Cluster, f: Id, b: Id, vs: set<Id>) returns (s': Cluster)
    requires Alive(cfg, s, 6) && Calm(s) && Probe5(f, b) in s.appends && InCharge(s, f, 4, Old(), -1) && Remembers(s, f, vs)
    ensures Alive(cfg, s', 6) && Calm(s') && SameExcept(s, s', {f})
    ensures Waits(s', f, 5, Old(), -1) && Remembers(s', f, vs)
    ensures AppendReply(Probe5(f, b), 4, false, Some(1)) in s'.appendReplies
  {
    hide TimelyReachable, Next, Handled;
    CalmFree(s, f);
    s' := DeliverOne(cfg, s, Probe5(f, b));
    TimelyOn(cfg, s, s');
    HandlesProbe5(cfg, s.nodes[f], f, b);
  }

  lemma BackUp5(cfg: Config, s: Cluster, f: Id, b: Id) returns (s': Cluster)
    requires Alive(cfg, s, 6) && Calm(s) && InCharge(s, b, 5, Rival(), 0) && Fresh(cfg, s, b, |Rival()|)
    requires f in cfg.members - {b}
    requires AppendReply(Probe5(f, b), 4, false, Some(1)) in s.appendReplies
    ensures Alive(cfg, s', 6) && Calm(s') && SameExcept(s, s', {b}) && InCharge(s', b, 5, Rival(), 0)
    ensures b in s'.nodes && f in s'.nodes[b].nextIndex && s'.nodes[b].nextIndex[f] == 1
  {
    hide TimelyReachable, Next;
    assert To(Probe5(f, b), f) == Probe5(f, b);
    s' := BackUpAll(cfg, s, Probe5(f, b), 4, 1, {f});
    TimelyOn(cfg, s, s');
  }

  lemma Refused5(cfg: Config, f: Id, b: Id, g: Id) returns (s: Cluster)
    requires Cast(cfg, f, b, g)
    ensures Alive(cfg, s, 6) && Calm(s) && AllIdle(s, Others(cfg, f, b), 5, Old())
    ensures InCharge(s, b, 5, Rival(), 0) && b in s.nodes && f in s.nodes[b].nextIndex && s.nodes[b].nextIndex[f] == 1
    ensures Waits(s, f, 5, Old(), -1) && Remembers(s, f, Others(cfg, f, b))
  {
    hide *;
    var vs := Others(cfg, f, b);
    OthersFacts(cfg, f, b, g);
    var elected := Elect5(cfg, f, b, g);
    var refused := DeliverProbe5(cfg, elected, f, b, vs);
    InChargeKept(elected, refused, {f}, b, 5, Rival(), 0);
    FreshKept(cfg, elected, refused, b, |Rival()|);
    s := BackUp5(cfg, refused, f, b);
    IdleKept(elected, refused, {f}, vs, 5, Old());
    IdleKept(refused, s, {b}, vs, 5, Old());
    WaitsAndRemembersKept(refused, s, {b}, f, 5, Old(), vs);
  }

  lemma FreshKept(cfg: Config, s: Cluster, s': Cluster, c: Id, n: nat)
    requires Fresh(cfg, s, c, n) && c in s.nodes && c in s'.nodes && s'.nodes[c] == s.nodes[c]
    ensures Fresh(cfg, s', c, n)
  {
  }

  lemma WaitsAndRemembersKept(s: Cluster, s': Cluster, ws: set<Id>, f: Id, t: nat, log: Log, vs: set<Id>)
    requires Waits(s, f, t, log, -1) && Remembers(s, f, vs) && SameExcept(s, s', ws) && f !in ws
    ensures Waits(s', f, t, log, -1) && Remembers(s', f, vs)
  {
  }

  lemma Sent5Again(cfg: Config, s: Cluster, f: Id, b: Id)
    requires InCharge(s, b, 5, Stolen(), 0) && f in s.nodes[b].nextIndex && s.nodes[b].nextIndex[f] == 1
    ensures MakeAppend(Self(cfg, b), s.nodes[b], f) == Send5(f, b)
  {
  }

  lemma Written5(cfg: Config, f: Id, b: Id, g: Id) returns (s: Cluster)
    requires Cast(cfg, f, b, g)
    ensures Alive(cfg, s, 6) && Calm(s) && AllIdle(s, Others(cfg, f, b), 5, Old()) && Send5(f, b) in s.appends
    ensures Waits(s, f, 5, Old(), -1) && Remembers(s, f, Others(cfg, f, b))
  {
    hide *;
    var vs := Others(cfg, f, b);
    OthersFacts(cfg, f, b, g);
    var before := Refused5(cfg, f, b, g);
    s := WriteIdle(cfg, before, b, 5, Rival(), 0, CommandOf(5));
    Extensions();
    IdleKept(before, s, {b}, vs, 5, Old());
    WaitsAndRemembersKept(before, s, {b}, f, 5, Old(), vs);
    Sent5Again(cfg, s, f, b);
  }

  /** f replaces its old entries; then the scan trusts what the others said in term 4. */
  lemma Steals(cfg: Config, n: Node, f: Id, b: Id, vs: set<Id>)
    requires !cfg.leaderOnlyScan && n.role == Follower && Has(n, 5, Old(), -1)
    requires forall q :: q in vs ==> q in n.matchIndex && n.matchIndex[q] == 2
    requires 1 + |vs| >= Majority(Self(cfg, f))
    ensures Handled(cfg, n, Send5(f, b)).node.role == Follower && Has(Handled(cfg, n, Send5(f, b)).node, 5, Stolen(), 2)
  {
    var me := Self(cfg, f);
    var m := Send5(f, b);
    MergeConflictAt1();
    assert PrevMatches(n.log, m);
    var merged := n.(log := Stolen(), commitIndex := 0);
    assert Store(me, n, m) == ApplyStateMachine(me, merged);
    LargeEnough(merged, 2, vs);
    assert Committable(me, merged, 2);
    assert ScanFrom(me, merged, 2) == 2;
    assert [] + Stolen()[0..3] == Stolen()[..3];
  }

  lemma MergeConflictAt1()
    ensures Merge(Old(), 1, [E(3), E(5)]) == Stolen()
  {
    assert Old()[..1] + [E(3), E(5)] == Stolen();
  }

  lemma DeliverSend5(cfg: Config, s: Cluster, f: Id, b: Id, vs: set<Id>) returns (s': Cluster)
    requires Alive(cfg, s, 6) && Calm(s) && Send5(f, b) in s.appends && !cfg.leaderOnlyScan
    requires Waits(s, f, 5, Old(), -1) && Remembers(s, f, vs) && 1 + |vs| >= Majority(Self(cfg, f))
    ensures Alive(cfg, s', 6) && Calm(s') && SameExcept(s, s', {f}) && Waits(s', f, 5, Stolen(), 2)
  {
    hide TimelyReachable, Next, Handled;
    CalmFree(s, f);
    s' := DeliverOne(cfg, s, Send5(f, b));
    TimelyOn(cfg, s, s');
    Steals(cfg, s.nodes[f], f, b, vs);
  }

  lemma Term5(cfg: Config, f: Id, b: Id, g: Id) returns (s: Cluster)
    requires Cast(cfg, f, b, g)
    ensures Alive(cfg, s, 6) && Calm(s) && AllIdle(s, Others(cfg, f, b), 5, Old()) && Waits(s, f, 5, Stolen(), 2)
  {
    hide *;
    var vs := Others(cfg, f, b);
    OthersFacts(cfg, f, b, g);
    var written := Written5(cfg, f, b, g);
    s := DeliverSend5(cfg, written, f, b, vs);
    IdleKept(written, s, {f}, vs, 5, Old());
  }

  // ----- Term 6 -----

  function Send6(g: Id): AppendReq {
    AppendReq(6, g, g, 2, 2, [E(6)], -1)
  }

  lemma Sent6(cfg: Config, s: Cluster, s': Cluster, g: Id, q: Id)
    requires InCharge(s', g, 6, Kept(), -1) && Fresh(cfg, s, g, |Old()|) && s'.nodes[g].nextIndex == s.nodes[g].nextIndex
    requires q in cfg.members - {g}
    ensures MakeAppend(Self(cfg, g), s'.nodes[g], q) == To(Send6(g), q)
  {
  }

  lemma Send6Facts(g: Id)
    ensures Send6(g).term == 6 && Send6(g).leader == g && Send6(g).entries != [] && Send6(g).End() == |Kept()|
    ensures Send6(g).leaderCommit == -1 && PrevMatches(Old(), Send6(g))
    ensures Merge(Old(), Send6(g).First(), Send6(g).entries) == Kept()
    ensures LastTerm(Kept()) == 6 && |Kept()| == 4 && forall i :: 0 <= i < 3 ==> Kept()[i].term != 6
  {
    MergeAtEnd(Old(), [E(6)]);
  }

  lemma IdleOne(s: Cluster, vs: set<Id>, g: Id, t: nat, log: Log)
    requires AllIdle(s, vs, t, log) && g in vs
    ensures AllIdle(s, vs - {g}, t, log) && g in s.nodes && s.nodes[g].role != Leader && Has(s.nodes[g], t, log, -1)
  {
  }

  lemma Begin6(cfg: Config, f: Id, b: Id, g: Id) returns (s: Cluster)
    requires Cast(cfg, f, b, g)
    ensures Alive(cfg, s, 7) && Calm(s) && AllIdle(s, Others(cfg, f, b) - {g}, 6, Old()) && Waits(s, f, 5, Stolen(), 2)
    ensures InCharge(s, g, 6, Kept(), -1) && Next6(s, g, f, 3)
    ensures forall q :: q in Others(cfg, f, b) - {g} ==> To(Send6(g), q) in s.appends
  {
    hide *;
    var vs := Others(cfg, f, b) - {g};
    OthersFacts(cfg, f, b, g);
    var before := Term5(cfg, f, b, g);
    IdleOne(before, Others(cfg, f, b), g, 5, Old());
    Comparisons();
    var elected := ElectIdle(cfg, before, g, vs, 5, Old(), 6, Old(), -1);
    WaitsKept(before, elected, vs + {g}, f, 5, Stolen(), 2);
    s := Written6(cfg, elected, f, g, vs);
  }

  /** The leader's nextIndex for f. */
  ghost predicate Next6(s: Cluster, g: Id, f: Id, k: nat) {
    g in s.nodes && f in s.nodes[g].nextIndex && NextIndex(s.nodes[g], f) == k
  }

  lemma FreshNext6(cfg: Config, s: Cluster, s': Cluster, g: Id, f: Id)
    requires Fresh(cfg, s, g, |Old()|) && f in cfg.members - {g}
    requires g in s'.nodes && s'.nodes[g].nextIndex == s.nodes[g].nextIndex
    ensures Next6(s', g, f, 3)
  {
  }

  lemma Written6(cfg: Config, s: Cluster, f: Id, g: Id, vs: set<Id>) returns (s': Cluster)
    requires Alive(cfg, s, 7) && Calm(s) && AllIdle(s, vs, 6, Old()) && Waits(s, f, 5, Stolen(), 2) && f != g
    requires InCharge(s, g, 6, Old(), -1) && Fresh(cfg, s, g, |Old()|)
    requires |cfg.members| >= 5 && vs <= cfg.members - {g} && f in cfg.members - {g}
    ensures Alive(cfg, s', 7) && Calm(s') && AllIdle(s', vs, 6, Old()) && Waits(s', f, 5, Stolen(), 2)
    ensures InCharge(s', g, 6, Kept(), -1) && Next6(s', g, f, 3) && forall q :: q in vs ==> To(Send6(g), q) in s'.appends
  {
    hide *;
    s' := WriteIdle(cfg, s, g, 6, Old(), -1, CommandOf(6));
    Extensions();
    IdleKept(s, s', {g}, vs, 6, Old());
    WaitsKept(s, s', {g}, f, 5, Stolen(), 2);
    FreshNext6(cfg, s, s', g, f);
    forall q | q in vs ensures To(Send6(g), q) in s'.appends {
      Sent6(cfg, s, s', g, q);
      assert MakeAppend(Self(cfg, g), s'.nodes[g], q) in s'.appends;
    }
  }

  lemma Term6(cfg: Config, f: Id, b: Id, g: Id) returns (s: Cluster)
    requires Cast(cfg, f, b, g)
    ensures Alive(cfg, s, 7) && Calm(s) && Waits(s, f, 5, Stolen(), 2) && InCharge(s, g, 6, Kept(), 3) && Next6(s, g, f, 3)
  {
    hide *;
    var vs := Others(cfg, f, b) - {g};
    OthersFacts(cfg, f, b, g);
    Send6Facts(g);
    var begun := Begin6(cfg, f, b, g);
    var stored := StoreIdle(cfg, begun, Send6(g), vs, 6, Old(), Kept());
    WaitsKept(begun, stored, vs, f, 5, Stolen(), 2);
    InChargeKept(begun, stored, vs, g, 6, Kept(), -1);
    SameNext6(begun, stored, g, f, 3);
    s := CommitIdle(cfg, stored, Send6(g), vs, Kept(), -1);
    WaitsKept(stored, s, {g}, f, 5, Stolen(), 2);
    CountsNext6(stored, s, g, f);
  }

  lemma SameNext6(s: Cluster, s': Cluster, g: Id, f: Id, k: nat)
    requires Next6(s, g, f, k) && g in s.nodes && g in s'.nodes && s'.nodes[g] == s.nodes[g]
    ensures Next6(s', g, f, k) && f in s'.nodes[g].nextIndex
  {
  }

  lemma CountsNext6(s: Cluster, s': Cluster, g: Id, f: Id)
    requires Next6(s, g, f, 3) && g in s'.nodes && NextIndex(s'.nodes[g], f) == NextIndex(s.nodes[g], f)
    ensures Next6(s', g, f, 3)
  {
  }

  // ----- The new leader's log reaches f -----

  /** The request for f when its nextIndex is k. */
  function SendF(f: Id, g: Id, k: nat): AppendReq
    requires 1 <= k <= 3
  {
    AppendReq(6, g, f, k - 1, if k == 1 then 1 else 2, Kept()[k..], 3)
  }

  lemma SentF(cfg: Config, s: Cluster, f: Id, g: Id, k: nat)
    requires InCharge(s, g, 6, Kept(), 3) && Next6(s, g, f, k) && 1 <= k <= 3
    ensures MakeAppend(Self(cfg, g), s.nodes[g], f) == SendF(f, g, k)
  {
  }

  lemma RefusesF(cfg: Config, n: Node, f: Id, g: Id, k: nat, t: nat)
    requires n.role == Follower && Has(n, t, Stolen(), 2) && 5 <= t <= 6 && 2 <= k <= 3
    ensures Handled(cfg, n, SendF(f, g, k)).node.role == Follower
    ensures Has(Handled(cfg, n, SendF(f, g, k)).node, 6, Stolen(), 2)
    ensures Handled(cfg, n, SendF(f, g, k)).reply == AppendReply(SendF(f, g, k), t, false, Some(k - 1))
  {
  }

  lemma RefuseF(cfg: Config, s: Cluster, f: Id, g: Id, k: nat, t: nat) returns (s': Cluster)
    requires Alive(cfg, s, 7) && Calm(s) && 2 <= k <= 3 && SendF(f, g, k) in s.appends
    requires Waits(s, f, t, Stolen(), 2) && 5 <= t <= 6
    ensures Alive(cfg, s', 7) && Calm(s') && SameExcept(s, s', {f}) && Waits(s', f, 6, Stolen(), 2)
    ensures AppendReply(SendF(f, g, k), t, false, Some(k - 1)) in s'.appendReplies
  {
    hide TimelyReachable, Next, Handled;
    CalmFree(s, f);
    s' := DeliverOne(cfg, s, SendF(f, g, k));
    TimelyOn(cfg, s, s');
    RefusesF(cfg, s.nodes[f], f, g, k, t);
  }

  lemma BackF(cfg: Config, s: Cluster, f: Id, g: Id, k: nat, t: nat) returns (s': Cluster)
    requires Alive(cfg, s, 7) && Calm(s) && InCharge(s, g, 6, Kept(), 3) && Next6(s, g, f, k) && 2 <= k <= 3 && t <= 6
    requires AppendReply(SendF(f, g, k), t, false, Some(k - 1)) in s.appendReplies
    ensures Alive(cfg, s', 7) && Calm(s') && SameExcept(s, s', {g}) && InCharge(s', g, 6, Kept(), 3)
    ensures Next6(s', g, f, k - 1)
  {
    hide TimelyReachable, Next;
    assert To(SendF(f, g, k), f) == SendF(f, g, k);
    s' := BackUpAll(cfg, s, SendF(f, g, k), t, k - 1, {f});
    TimelyOn(cfg, s, s');
  }

  lemma BeatF(cfg: Config, s: Cluster, f: Id, g: Id, k: nat) returns (s': Cluster)
    requires Alive(cfg, s, 7) && Calm(s) && InCharge(s, g, 6, Kept(), 3) && Next6(s, g, f, k) && 1 <= k <= 3
    requires g in cfg.members && f in cfg.members - {g} && |cfg.members| >= 5
    ensures Alive(cfg, s', 7) && Calm(s') && SameExcept(s, s', {}) && SendF(f, g, k) in s'.appends
    ensures InCharge(s', g, 6, Kept(), 3) && Next6(s', g, f, k)
  {
    hide *;
    AliveHas(cfg, s, 7, g);
    s' := BeatIdle(cfg, s, g, 6, Kept(), 3);
    SentF(cfg, s, f, g, k);
    InChargeKept(s, s', {}, g, 6, Kept(), 3);
    SameNext6(s, s', g, f, k);
  }

  /** One refused round trip to f. */
  lemma ProbeF(cfg: Config, s: Cluster, f: Id, g: Id, k: nat, t: nat) returns (s': Cluster)
    requires Alive(cfg, s, 7) && Calm(s) && InCharge(s, g, 6, Kept(), 3) && Next6(s, g, f, k) && 2 <= k <= 3
    requires Waits(s, f, t, Stolen(), 2) && 5 <= t <= 6
    requires g in cfg.members && f in cfg.members - {g} && |cfg.members| >= 5
    ensures Alive(cfg, s', 7) && Calm(s') && InCharge(s', g, 6, Kept(), 3) && Next6(s', g, f, k - 1)
    ensures Waits(s', f, 6, Stolen(), 2)
  {
    hide *;
    AliveHas(cfg, s, 7, g);
    var sent := BeatF(cfg, s, f, g, k);
    WaitsKept(s, sent, {}, f, t, Stolen(), 2);
    AliveHas(cfg, sent, 7, g);
    var refused := RefuseF(cfg, sent, f, g, k, t);
    InChargeKept(sent, refused, {f}, g, 6, Kept(), 3);
    AliveHas(cfg, refused, 7, g);
    SameNext6(sent, refused, g, f, k);
    s' := BackF(cfg, refused, f, g, k, t);
    WaitsKept(refused, s', {g}, f, 6, Stolen(), 2);
  }

  /** f still holds what it committed, and the request that will overwrite it is on its way. */
  lemma Doomed(cfg: Config, f: Id, b: Id, g: Id) returns (s: Cluster)
    requires Cast(cfg, f, b, g)
    ensures Alive(cfg, s, 7) && Calm(s) && Waits(s, f, 6, Stolen(), 2) && SendF(f, g, 1) in s.appends
  {
    hide *;
    OthersFacts(cfg, f, b, g);
    var three := Term6(cfg, f, b, g);
    var two := ProbeF(cfg, three, f, g, 3, 5);
    var one := ProbeF(cfg, two, f, g, 2, 6);
    s := BeatF(cfg, one, f, g, 1);
    WaitsKept(one, s, {}, f, 6, Stolen(), 2);
  }

  lemma Overwrites(cfg: Config, n: Node, f: Id, g: Id)
    requires n.role == Follower && Has(n, 6, Stolen(), 2)
    ensures var n' := Handled(cfg, n, SendF(f, g, 1)).node;
            && n'.log == Kept() && n'.commitIndex == n'.lastApplied == 3 && n'.applied == Stolen() + [E(6)]
  {
    var m := SendF(f, g, 1);
    var merged := n.(log := Merge(n.log, 1, m.entries));
    assert FirstConflict(n.log, 1, m.entries, 0);
    MergeConflict(n.log, 1, m.entries, 0);
    assert n.log[..1] + m.entries[0..] == Kept();
    assert Stolen() + Kept()[3..4] == Stolen() + [E(6)];
  }

  // ----- What comes of it -----

  lemma ThreeOf(vs: set<Id>) returns (f: Id, b: Id, g: Id)
    requires |vs| >= 3
    ensures f in vs && b in vs && g in vs && f != b && b != g && f != g
  {
    f :| f in vs;
    WithoutOne(vs, f);
    b :| b in vs - {f};
    WithoutOne(vs - {f}, b);
    g :| g in vs - {f} - {b};
  }

  /** f has committed and applied what g, the leader of a later term, has not, and g something
      else at index 1. */
  lemma CommitsDiverge(cfg: Config) returns (s: Cluster, f: Id, g: Id)
    requires ValidConfig(cfg) && !ScanIsSafe(cfg)
    ensures TimelyReachable(cfg, s) && Waits(s, f, 5, Stolen(), 2) && InCharge(s, g, 6, Kept(), 3)
    ensures Stolen()[1] != Kept()[1]
  {
    var b;
    f, b, g := ThreeOf(cfg.members);
    s := Term6(cfg, f, b, g);
    hide TimelyReachable;
  }

  lemma Overwritten(cfg: Config, s: Cluster, f: Id, g: Id) returns (action: Action, s': Cluster)
    requires Alive(cfg, s, 7) && Calm(s) && Waits(s, f, 6, Stolen(), 2) && SendF(f, g, 1) in s.appends
    ensures TimelyReachable(cfg, s) && Enabled(s, action) && InTime(cfg, s, action) && s' == Next(cfg, s, action)
    ensures TimelyReachable(cfg, s') && f in s'.nodes
    ensures s'.nodes[f].log == Kept() && s'.nodes[f].commitIndex == 3 && s'.nodes[f].applied == Stolen() + [E(6)]
  {
    action := DeliverAppend(SendF(f, g, 1));
    hide TimelyReachable, Next, Handled, ReturnedBefore, Stolen, Kept, KeepsMessages, Enabled, InTime;
    CalmFree(s, f);
    DeliverIs(cfg, s, SendF(f, g, 1));
    s' := Next(cfg, s, action);
    TimelyNext(cfg, s, action);
    Overwrites(cfg, s.nodes[f], f, g);
  }

  /** A reachable state and the one after it, in which f has lost what it had committed. */
  lemma CommitIsOverwritten(cfg: Config) returns (s: Cluster, action: Action, s': Cluster, f: Id)
    requires ValidConfig(cfg) && !ScanIsSafe(cfg)
    ensures TimelyReachable(cfg, s) && Enabled(s, action) && InTime(cfg, s, action) && s' == Next(cfg, s, action)
    ensures TimelyReachable(cfg, s')
    ensures Waits(s, f, 6, Stolen(), 2) && f in s'.nodes
    ensures s'.nodes[f].log == Kept() && s'.nodes[f].commitIndex == 3 && s'.nodes[f].applied == Stolen() + [E(6)]
  {
    hide TimelyReachable, Next, Enabled, InTime, Alive, Waits, Stolen, Kept, SendF;
    var b, g;
    f, b, g := ThreeOf(cfg.members);
    s := Doomed(cfg, f, b, g);
    action, s' := Overwritten(cfg, s, f, g);
  }
}
