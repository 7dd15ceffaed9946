/**
 * Execution state in script.js: per flow, a `completed` map from unit id to a
 * flag (`appState.executions.flows[flowId].completed`), with `ensureExecFlow`,
 * `setCompleted`, `isCompleted` and `toggleUnitCompletion`.
 */
module Execution {
  import opened Wrappers
  import opened Workflow

  /** A flow's `completed` map. */
  type Completion = map<string, bool>

  /** `ensureExecFlow` on the state: a flow without a record gets an empty one. */
  function Ensured(flows: map<string, Completion>, flowId: string): (r: map<string, Completion>)
    ensures flowId in r && r[flowId] == (if flowId in flows then flows[flowId] else map[])
    ensures forall f :: f in flows ==> f in r && r[f] == flows[f]
    ensures r.Keys == flows.Keys + {flowId}
  {
    if flowId in flows then flows else flows[flowId := map[]]
  }

  /** `completed[unitId] === true`: only a stored `true` counts. */
  predicate CompletedIn(flows: map<string, Completion>, flowId: string, unitId: string)
  {
    flowId in flows && unitId in flows[flowId] && flows[flowId][unitId]
  }

  /** `setCompleted` on the state. */
  function WithCompleted(flows: map<string, Completion>, flowId: string, unitId: string, value: bool): map<string, Completion>
  {
    var e := Ensured(flows, flowId);
    e[flowId := e[flowId][unitId := value]]
  }

  /** `toggleUnitCompletion` on the state, once the flow and the unit were found. */
  function Toggled(flows: map<string, Completion>, flowId: string, unitId: string): map<string, Completion>
  {
    WithCompleted(flows, flowId, unitId, !CompletedIn(flows, flowId, unitId))
  }

  /** After `setCompleted`, `isCompleted` answers the value stored, and every other unit and flow answers as before. */
  lemma WithCompletedReads(flows: map<string, Completion>, flowId: string, unitId: string, value: bool, f: string, u: string)
    ensures CompletedIn(WithCompleted(flows, flowId, unitId, value), f, u)
      == if f == flowId && u == unitId then value else CompletedIn(flows, f, u)
  {
  }

  /** Toggling flips what `isCompleted` answers for that unit and leaves every other answer alone. */
  lemma ToggleFlips(flows: map<string, Completion>, flowId: string, unitId: string, f: string, u: string)
    ensures CompletedIn(Toggled(flows, flowId, unitId), f, u)
      == if f == flowId && u == unitId then !CompletedIn(flows, f, u) else CompletedIn(flows, f, u)
  {
    WithCompletedReads(flows, flowId, unitId, !CompletedIn(flows, flowId, unitId), f, u);
  }

  /** Toggling twice restores every answer of `isCompleted`. */
  lemma ToggleTwice(flows: map<string, Completion>, flowId: string, unitId: string, f: string, u: string)
    ensures CompletedIn(Toggled(Toggled(flows, flowId, unitId), flowId, unitId), f, u) == CompletedIn(flows, f, u)
  {
    ToggleFlips(flows, flowId, unitId, f, u);
    ToggleFlips(Toggled(flows, flowId, unitId), flowId, unitId, f, u);
  }

  /** Once a flow's record holds a boolean for the unit, toggling twice gives back the very same state. */
  lemma ToggleTwiceExact(flows: map<string, Completion>, flowId: string, unitId: string)
    requires flowId in flows && unitId in flows[flowId]
    ensures Toggled(Toggled(flows, flowId, unitId), flowId, unitId) == flows
  {
    var c := flows[flowId];
    var b := c[unitId];
    var once := flows[flowId := c[unitId := !b]];
    assert Toggled(flows, flowId, unitId) == once;
    assert Toggled(once, flowId, unitId) == once[flowId := c[unitId := !b][unitId := b]];
    assert c[unitId := !b][unitId := b] == c;
    assert once[flowId := c] == flows;
  }

  /** `appState.executions`. */
  class Executions {
    var flows: map<string, Completion>

    constructor (initial: map<string, Completion>)
      ensures flows == initial
    {
      flows := initial;
    }

    /** `ensureExecFlow(flowId)`: the flow's record, created empty when missing. */
    method EnsureExecFlow(flowId: string) returns (completed: Completion)
      modifies this
      ensures flows == Ensured(old(flows), flowId)
      ensures completed == flows[flowId]
    {
      if flowId !in flows {
        flows := flows[flowId := map[]];
      }
      completed := flows[flowId];
    }

    /** `setCompleted(flowId, unitId, value)`. */
    method SetCompleted(flowId: string, unitId: string, value: bool)
      modifies this
      ensures flows == WithCompleted(old(flows), flowId, unitId, value)
    {
      var completed := EnsureExecFlow(flowId);
      flows := flows[flowId := completed[unitId := value]];
    }

    /** `isCompleted(flowId, unitId)`: creates the flow's record as a side effect. */
    method IsCompleted(flowId: string, unitId: string) returns (done: bool)
      modifies this
      ensures done == CompletedIn(old(flows), flowId, unitId)
      ensures flows == Ensured(old(flows), flowId)
    {
      var completed := EnsureExecFlow(flowId);
      done := unitId in completed && completed[unitId];
    }

    /**
     * `toggleUnitCompletion(path, unitId)` on the current flow (`None` when
     * there is none): nothing happens unless a unit sits at `path`; the flag
     * toggled is the one of `unitId`.
     */
    method ToggleUnitCompletion(flow: Option<Flow>, path: Path, unitId: string)
      modifies this
      ensures flow.None? || GetByPath(flow.value.data, path).None? ==> flows == old(flows)
      ensures flow.Some? && GetByPath(flow.value.data, path).Some? ==> flows == Toggled(old(flows), flow.value.id, unitId)
    {
      if flow.None? {
        return;
      }
      var unit := GetByPath(flow.value.data, path);
      if unit.None? {
        return;
      }
      var current := IsCompleted(flow.value.id, unitId);
      SetCompleted(flow.value.id, unitId, !current);
    }
  }
}
