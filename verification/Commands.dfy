/**
 The commands that the replicated log carries and the table of monitored worker
 nodes that they build (server/state_machine.cpp, server/state_machine.hpp).
 A command is the parsed form of the JSON text; a JSON field that may be absent
 is an Option.
 */
module Commands {

  datatype Option<+T> = None | Some(value: T)

  /** The value of the option, or `default` when there is none. */
  function GetOr<T>(o: Option<T>, default: T): T {
    match o
    case None => default
    case Some(v) => v
  }

  datatype Command =
    | UpdateNode(
        nodeId: Option<string>,
        status: Option<string>,
        lastSeen: Option<int>,
        ipAddress: Option<string>,
        cpuUsage: Option<int>,
        memoryUsage: Option<int>,
        metadata: Option<string>)
    | RemoveNode(nodeId: Option<string>)
    | SetStatus(nodeId: Option<string>, status: Option<string>)
    | Heartbeat(nodeId: Option<string>)
    | LegacySet(key: string, text: string)  // "SET key value", not JSON
    | Unrecognised                          // no action, unknown action, or unparsable

  datatype NodeState = NodeState(
    lastSeen: int,
    status: string,
    ipAddress: string,
    cpuUsage: int,
    memoryUsage: int,
    metadata: string)

  const DEFAULT_STATE := NodeState(0, "unknown", "", 0, 0, "")

  type Table = map<string, NodeState>

  /** What `nodes[id]` denotes in C++: the stored record, or a default one. */
  function Lookup(nodes: Table, id: string): NodeState {
    if id in nodes then nodes[id] else DEFAULT_STATE
  }

  /** One call of StateMachine::apply; `now` is the clock read by that call. */
  function ApplyCommand(nodes: Table, cmd: Command, now: int): Table {
    match cmd
    case UpdateNode(Some(id), status, lastSeen, ip, cpu, memory, metadata) =>
      var was := Lookup(nodes, id);
      nodes[id := NodeState(GetOr(lastSeen, now), GetOr(status, was.status), GetOr(ip, was.ipAddress),
                            GetOr(cpu, was.cpuUsage), GetOr(memory, was.memoryUsage),
                            GetOr(metadata, was.metadata))]
    case RemoveNode(Some(id)) =>
      map k | k in nodes && k != id :: nodes[k]
    case SetStatus(Some(id), Some(status)) =>
      nodes[id := Lookup(nodes, id).(status := status, lastSeen := now)]
    case Heartbeat(Some(id)) =>
      nodes[id := Lookup(nodes, id).(lastSeen := now, status := "active")]
    case LegacySet(key, text) =>
      nodes[key := DEFAULT_STATE.(lastSeen := now, status := text)]
    case _ => nodes
  }

  // ----- What each action leaves -----

  /** No record but that of `id` appears, disappears or changes. */
  ghost predicate OthersStay(nodes: Table, after: Table, id: string) {
    && (forall k :: k != id ==> (k in after <==> k in nodes))
    && (forall k :: k != id && k in nodes && k in after ==> after[k] == nodes[k])
  }

  /** The fields of a worker's record that its command leaves alone: what it had, or the
      values of a record that is new. */
  ghost predicate KeepsStatus(nodes: Table, id: string, r: NodeState) {
    r.status == if id in nodes then nodes[id].status else "unknown"
  }

  ghost predicate KeepsAddress(nodes: Table, id: string, r: NodeState) {
    r.ipAddress == if id in nodes then nodes[id].ipAddress else ""
  }

  ghost predicate KeepsCpu(nodes: Table, id: string, r: NodeState) {
    r.cpuUsage == if id in nodes then nodes[id].cpuUsage else 0
  }

  ghost predicate KeepsMemory(nodes: Table, id: string, r: NodeState) {
    r.memoryUsage == if id in nodes then nodes[id].memoryUsage else 0
  }

  ghost predicate KeepsMetadata(nodes: Table, id: string, r: NodeState) {
    r.metadata == if id in nodes then nodes[id].metadata else ""
  }

  /** A heartbeat makes the worker active as of now, known before or not. */
  lemma HeartbeatLeaves(nodes: Table, id: string, now: int)
    ensures
      var after := ApplyCommand(nodes, Heartbeat(Some(id)), now);
      && id in after && after[id].status == "active" && after[id].lastSeen == now && OthersStay(nodes, after, id)
      && KeepsAddress(nodes, id, after[id]) && KeepsCpu(nodes, id, after[id])
      && KeepsMemory(nodes, id, after[id]) && KeepsMetadata(nodes, id, after[id])
  {
  }

  /** SET_STATUS gives the worker the status as of now, known before or not. */
  lemma SetStatusLeaves(nodes: Table, id: string, status: string, now: int)
    ensures
      var after := ApplyCommand(nodes, SetStatus(Some(id), Some(status)), now);
      && id in after && after[id].status == status && after[id].lastSeen == now && OthersStay(nodes, after, id)
      && KeepsAddress(nodes, id, after[id]) && KeepsCpu(nodes, id, after[id])
      && KeepsMemory(nodes, id, after[id]) && KeepsMetadata(nodes, id, after[id])
  {
  }

  /** UPDATE_NODE sets the fields it carries, known worker or not; without a time it is now. */
  lemma UpdateNodeLeaves(nodes: Table, id: string, cmd: Command, now: int)
    requires cmd.UpdateNode? && cmd.nodeId == Some(id)
    ensures
      var after := ApplyCommand(nodes, cmd, now);
      && id in after && OthersStay(nodes, after, id)
      && (match cmd.lastSeen case Some(t) => after[id].lastSeen == t case None => after[id].lastSeen == now)
      && (match cmd.status case Some(v) => after[id].status == v case None => KeepsStatus(nodes, id, after[id]))
      && (match cmd.ipAddress case Some(v) => after[id].ipAddress == v case None => KeepsAddress(nodes, id, after[id]))
      && (match cmd.cpuUsage case Some(v) => after[id].cpuUsage == v case None => KeepsCpu(nodes, id, after[id]))
      && (match cmd.memoryUsage case Some(v) => after[id].memoryUsage == v case None => KeepsMemory(nodes, id, after[id]))
      && (match cmd.metadata case Some(v) => after[id].metadata == v case None => KeepsMetadata(nodes, id, after[id]))
  {
  }

  /** REMOVE_NODE leaves no record of the worker. */
  lemma RemoveNodeLeaves(nodes: Table, id: string, now: int)
    ensures
      var after := ApplyCommand(nodes, RemoveNode(Some(id)), now);
      id !in after && OthersStay(nodes, after, id)
  {
  }

  /** "SET key value" leaves a record with nothing but the status and the time. */
  lemma LegacySetLeaves(nodes: Table, key: string, text: string, now: int)
    ensures
      var after := ApplyCommand(nodes, LegacySet(key, text), now);
      && key in after && after[key].status == text && after[key].lastSeen == now && OthersStay(nodes, after, key)
      && after[key].ipAddress == "" && after[key].cpuUsage == 0 && after[key].memoryUsage == 0 && after[key].metadata == ""
  {
  }

  /** The command lacks what its action needs, or has no action the table knows. */
  predicate Incomplete(cmd: Command) {
    match cmd
    case UpdateNode(id, _, _, _, _, _, _) => id.None?
    case RemoveNode(id) => id.None?
    case SetStatus(id, status) => id.None? || status.None?
    case Heartbeat(id) => id.None?
    case LegacySet(_, _) => false
    case Unrecognised => true
  }

  /** Only such a command is ignored: any other leaves its mark, or removes one. */
  lemma IncompleteIsIgnored(nodes: Table, cmd: Command, now: int)
    requires Incomplete(cmd)
    ensures ApplyCommand(nodes, cmd, now) == nodes
  {
  }

  // ----- Replay -----

  /** The table after applying `cmds` in order; `readings[i]` is the clock read for `cmds[i]`. */
  function Replay(cmds: seq<Command>, readings: seq<int>): Table
    requires |cmds| == |readings|
  {
    if cmds == [] then map[]
    else
      var n := |cmds| - 1;
      ApplyCommand(Replay(cmds[..n], readings[..n]), cmds[n], readings[n])
  }

  lemma ReplayOneMore(cmds: seq<Command>, readings: seq<int>, cmd: Command, now: int)
    requires |cmds| == |readings|
    ensures Replay(cmds + [cmd], readings + [now]) == ApplyCommand(Replay(cmds, readings), cmd, now)
  {
    assert (cmds + [cmd])[..|cmds|] == cmds && (readings + [now])[..|cmds|] == readings;
  }

  /** The command is about worker `id`. */
  predicate Names(cmd: Command, id: string) {
    match cmd
    case UpdateNode(target, _, _, _, _, _, _) => target == Some(id)
    case RemoveNode(target) => target == Some(id)
    case SetStatus(target, _) => target == Some(id)
    case Heartbeat(target) => target == Some(id)
    case LegacySet(key, _) => key == id
    case Unrecognised => false
  }

  /** The two tables say the same of worker `id`. */
  ghost predicate SameRecord(a: Table, b: Table, id: string) {
    (id in a <==> id in b) && (id in a && id in b ==> a[id] == b[id])
  }

  /** What a table says of a worker, the last command about it has left there. */
  lemma {:induction false} LastCommandDecides(cmds: seq<Command>, readings: seq<int>, k: nat, id: string)
    requires |cmds| == |readings| && k < |cmds| && forall j :: k < j < |cmds| ==> !Names(cmds[j], id)
    ensures SameRecord(Replay(cmds, readings), Replay(cmds[..k + 1], readings[..k + 1]), id)
  {
    var n := |cmds| - 1;
    if k < n {
      LastCommandDecides(cmds[..n], readings[..n], k, id);
      assert cmds[..n][..k + 1] == cmds[..k + 1] && readings[..n][..k + 1] == readings[..k + 1];
    } else {
      assert cmds[..k + 1] == cmds && readings[..k + 1] == readings;
    }
  }

  /** A worker whose last command was a heartbeat is active as of that command's clock reading;
      one whose last command removed it is not in the table. */
  lemma LastHeartbeatShows(cmds: seq<Command>, readings: seq<int>, k: nat, id: string)
    requires |cmds| == |readings| && k < |cmds| && forall j :: k < j < |cmds| ==> !Names(cmds[j], id)
    ensures var table := Replay(cmds, readings);
            && (cmds[k] == Heartbeat(Some(id)) ==>
                  id in table && table[id].status == "active" && table[id].lastSeen == readings[k])
            && (cmds[k] == RemoveNode(Some(id)) ==> id !in table)
  {
    LastCommandDecides(cmds, readings, k, id);
    assert cmds[..k + 1][..k] == cmds[..k] && readings[..k + 1][..k] == readings[..k];
    hide ApplyCommand;
    HeartbeatLeaves(Replay(cmds[..k], readings[..k]), id, readings[k]);
    RemoveNodeLeaves(Replay(cmds[..k], readings[..k]), id, readings[k]);
  }

  /** Equal keys, and equal records up to `lastSeen`. */
  ghost predicate SameUpToClock(a: Table, b: Table) {
    && a.Keys == b.Keys
    && forall k :: k in a ==> a[k].(lastSeen := 0) == b[k].(lastSeen := 0)
  }

  lemma ApplySameUpToClock(a: Table, b: Table, cmd: Command, nowA: int, nowB: int)
    requires SameUpToClock(a, b)
    ensures SameUpToClock(ApplyCommand(a, cmd, nowA), ApplyCommand(b, cmd, nowB))
  {
    forall id
      ensures Lookup(a, id).(lastSeen := 0) == Lookup(b, id).(lastSeen := 0)
    {
    }
  }

  /** Replaying the same commands gives the same table, whatever the local clocks read. */
  lemma {:induction false} ReplaySameUpToClock(cmds: seq<Command>, ra: seq<int>, rb: seq<int>)
    requires |cmds| == |ra| == |rb|
    ensures SameUpToClock(Replay(cmds, ra), Replay(cmds, rb))
  {
    if cmds != [] {
      var n := |cmds| - 1;
      ReplaySameUpToClock(cmds[..n], ra[..n], rb[..n]);
      ApplySameUpToClock(Replay(cmds[..n], ra[..n]), Replay(cmds[..n], rb[..n]), cmds[n], ra[n], rb[n]);
    }
  }
}
