/**
 The table of worker nodes as an object that commands update in place
 (server/state_machine.cpp). The clock reading is a parameter of each call.
 */
module StateMachines {
  import opened Commands

  class StateMachine {
    var nodes: Table

    constructor ()
      ensures nodes == map[]
    {
      nodes := map[];
    }

    method Apply(command: Command, now: int)
      modifies this
      ensures nodes == ApplyCommand(old(nodes), command, now)
    {
      match command
      case UpdateNode(_, _, _, _, _, _, _) =>
        HandleUpdateNode(command, now);
      case RemoveNode(nodeId) =>
        if nodeId.Some? {
          HandleRemoveNode(nodeId.value);
        }
      case SetStatus(nodeId, status) =>
        if nodeId.Some? && status.Some? {
          HandleSetStatus(nodeId.value, status.value, now);
        }
      case Heartbeat(nodeId) =>
        if nodeId.Some? {
          Touch(nodeId.value);
          nodes := nodes[nodeId.value := nodes[nodeId.value].(lastSeen := now)];
          nodes := nodes[nodeId.value := nodes[nodeId.value].(status := "active")];
        }
      case LegacySet(key, text) =>
        var state := DEFAULT_STATE;
        state := state.(lastSeen := now);
        state := state.(status := text);
        nodes := nodes[key := state];
      case Unrecognised =>
    }

    /** What `nodes[nodeId]` does to the C++ map: it makes sure there is a record. */
    method Touch(nodeId: string)
      modifies this
      ensures nodes == old(nodes)[nodeId := Lookup(old(nodes), nodeId)]
    {
      if nodeId !in nodes {
        nodes := nodes[nodeId := DEFAULT_STATE];
      }
    }

    method HandleUpdateNode(params: Command, now: int)
      requires params.UpdateNode?
      modifies this
      ensures nodes == ApplyCommand(old(nodes), params, now)
    {
      if params.nodeId.None? {
        return;
      }
      var nodeId := params.nodeId.value;
      Touch(nodeId);
      var state := UpdateFields(nodes[nodeId], params, now);
      nodes := nodes[nodeId := state];
    }

    /** The assignments of handleUpdateNode through its reference into the map. */
    static method UpdateFields(was: NodeState, params: Command, now: int) returns (state: NodeState)
      requires params.UpdateNode?
      ensures state.status == GetOr(params.status, was.status)
      ensures state.lastSeen == GetOr(params.lastSeen, now)
      ensures state.ipAddress == GetOr(params.ipAddress, was.ipAddress)
      ensures state.cpuUsage == GetOr(params.cpuUsage, was.cpuUsage)
      ensures state.memoryUsage == GetOr(params.memoryUsage, was.memoryUsage)
      ensures state.metadata == GetOr(params.metadata, was.metadata)
    {
      state := was;
      if params.status.Some? {
        state := state.(status := params.status.value);
      }
      if params.lastSeen.Some? {
        state := state.(lastSeen := params.lastSeen.value);
      } else {
        state := state.(lastSeen := now);
      }
      if params.ipAddress.Some? {
        state := state.(ipAddress := params.ipAddress.value);
      }
      if params.cpuUsage.Some? {
        state := state.(cpuUsage := params.cpuUsage.value);
      }
      if params.memoryUsage.Some? {
        state := state.(memoryUsage := params.memoryUsage.value);
      }
      if params.metadata.Some? {
        state := state.(metadata := params.metadata.value);
      }
    }

    method HandleRemoveNode(nodeId: string)
      modifies this
      ensures nodes == old(nodes) - {nodeId}
    {
      if nodeId in nodes {
        nodes := nodes - {nodeId};
      }
    }

    method HandleSetStatus(nodeId: string, status: string, now: int)
      modifies this
      ensures nodes == old(nodes)[nodeId := Lookup(old(nodes), nodeId).(status := status, lastSeen := now)]
    {
      Touch(nodeId);
      nodes := nodes[nodeId := nodes[nodeId].(status := status)];
      nodes := nodes[nodeId := nodes[nodeId].(lastSeen := now)];
    }
  }
}
