/**
 * The flow-level operations of script.js over `appState`: `copyWorkflow`,
 * `createLinkedWorkflow` and `propagateToLinkedWorkflows`. The flows list
 * and the current flow id are fields of `AppState`; the execution state, the
 * link groups and the id clock are the objects `Execution.Executions`,
 * `Links.WorkflowLinks` and `Ids.IdClock`.
 */
module Workspace {
  import opened Wrappers
  import opened Ids
  import opened Workflow
  import opened Execution
  import opened Links
  import opened Propagation
  import opened Copying

  /** The copy of `source` that `copyWorkflow` pushes: a `flow-` id drawn at `stamp`, the new name, and the units renumbered after it. */
  function CopyOf(source: Flow, newName: string, stamp: nat): Flow
  {
    source.(id := Mint("flow", stamp), name := newName, data := CopyList(source.data, stamp + 1).nodes)
  }

  /**
   * A copy differs from its source in id, name and unit ids only; its units
   * have pairwise distinct ids; and, when the new id is not the source's nor
   * already in the execution state, the `i`-th unit of the copy is completed
   * exactly when the `i`-th unit of the source is.
   */
  lemma CopyOfSpec(source: Flow, newName: string, stamp: nat, execs: map<string, Completion>, i: nat)
    requires Mint("flow", stamp) != source.id && Mint("flow", stamp) !in execs
    requires i < |UnitIdList(source.data)|
    ensures var c := CopyOf(source, newName, stamp);
      var pairs := CopyList(source.data, stamp + 1).pairs;
      c.(id := source.id, name := source.name, data := source.data) == source
      && c.name == newName
      && StripIds(c.data) == StripIds(source.data)
      && (forall a, b :: 0 <= a < b < |UnitIdList(c.data)| ==> UnitIdList(c.data)[a] != UnitIdList(c.data)[b])
      && i < |UnitIdList(c.data)|
      && (CompletedIn(CarryAll(execs, source.id, c.id, pairs), c.id, UnitIdList(c.data)[i])
          <==> CompletedIn(execs, source.id, UnitIdList(source.data)[i]))
  {
    CopyListShape(source.data, stamp + 1);
    CopiedIdsDistinct(source.data, stamp + 1);
    CopyCarriesCompletion(execs, source.id, Mint("flow", stamp), source.data, stamp + 1, i);
  }

  /** What `createLinkedWorkflow` has built when it saves: the flows, the completion records, the link groups and the clock. */
  datatype Saved = Saved(copy: Flow, flows: seq<Flow>, execs: map<string, Completion>, links: seq<LinkGroup>, stamp: nat)

  /**
   * The state before the closing save of `createLinkedWorkflow` for a found
   * source: the copy is pushed last, the marks are carried to it, and it joins
   * or founds a link group; only founding a group draws one more id.
   */
  function LinkedCopy(flows: seq<Flow>, execs: map<string, Completion>, links: seq<LinkGroup>, source: Flow, name: string, stamp: nat): (m: Saved)
    ensures m.copy == CopyOf(source, name, stamp) && m.flows == flows + [m.copy]
    ensures FindFlow(m.flows, m.copy.id).Some?
    ensures m.stamp == CopyList(source.data, stamp + 1).stamp + (if Linked(links, source.id) then 0 else 1)
  {
    var copy := CopyOf(source, name, stamp);
    var units := CopyList(source.data, stamp + 1);
    assert (flows + [copy])[|flows|].id == copy.id;
    Saved(copy, flows + [copy], CarryAll(execs, source.id, copy.id, units.pairs),
          LinkedAfterCopy(links, copy.id, source.id, units.stamp),
          if Linked(links, source.id) then units.stamp else units.stamp + 1)
  }

  /** `appState`: the flows, the current flow, and the shared stores. */
  class AppState {
    var flows: seq<Flow>
    var currentFlowId: string
    const links: WorkflowLinks
    const execs: Executions
    const clock: IdClock

    constructor (initial: seq<Flow>, current: string, links: WorkflowLinks, execs: Executions, clock: IdClock)
      ensures flows == initial && currentFlowId == current
      ensures this.links == links && this.execs == execs && this.clock == clock
    {
      flows := initial;
      currentFlowId := current;
      this.links := links;
      this.execs := execs;
      this.clock := clock;
    }

    /**
     * `copyWorkflow(newName, sourceFlowId)`: nothing happens when no flow has
     * that id; otherwise the copy is pushed, becomes the current flow, and
     * the completed units of the source are marked in it.
     */
    method CopyWorkflow(newName: string, sourceFlowId: string) returns (newFlowId: Option<string>)
      modifies this, execs, clock
      ensures FindFlow(old(flows), sourceFlowId).None? ==>
        newFlowId.None? && flows == old(flows) && currentFlowId == old(currentFlowId)
        && execs.flows == old(execs.flows) && clock.stamp == old(clock.stamp)
      ensures FindFlow(old(flows), sourceFlowId).Some? ==>
        var source := old(flows)[FindFlow(old(flows), sourceFlowId).value];
        var copy := CopyOf(source, newName, old(clock.stamp));
        var units := CopyList(source.data, old(clock.stamp) + 1);
        newFlowId == Some(copy.id) && flows == old(flows) + [copy] && currentFlowId == copy.id
        && execs.flows == CarryAll(old(execs.flows), sourceFlowId, copy.id, units.pairs)
        && clock.stamp == units.stamp
    {
      var found := FindFlow(flows, sourceFlowId);
      if found.None? {
        return None;
      }
      var source := flows[found.value];
      var id := clock.GenerateId("flow");
      var units := RegenerateAllUnitIds(source.data, sourceFlowId, id, clock, execs);
      flows := flows + [source.(id := id, name := newName, data := units.nodes)];
      currentFlowId := id;
      return Some(id);
    }

    /**
     * `createLinkedWorkflow(name, sourceFlowId)`: a copy as `copyWorkflow`
     * makes it, which then joins the source's link group, or founds a new
     * group with the source when the source is linked to nothing. The copy
     * becomes the current flow in creation mode, so the closing
     * `saveWorkflow` propagates it to every flow it is now linked to: the
     * flows, the clock and the completion records end as
     * `propagateToLinkedWorkflows` of the new flow leaves them.
     */
    method CreateLinkedWorkflow(name: string, sourceFlowId: string) returns (newFlowId: Option<string>)
      modifies this, execs, clock, links
      ensures FindFlow(old(flows), sourceFlowId).None? ==>
        newFlowId.None? && flows == old(flows) && currentFlowId == old(currentFlowId)
        && execs.flows == old(execs.flows) && clock.stamp == old(clock.stamp) && links.links == old(links.links)
      ensures FindFlow(old(flows), sourceFlowId).Some? ==>
        var m := LinkedCopy(old(flows), old(execs.flows), old(links.links), old(flows)[FindFlow(old(flows), sourceFlowId).value], name, old(clock.stamp));
        newFlowId == Some(m.copy.id) && currentFlowId == m.copy.id && links.links == m.links
      ensures FindFlow(old(flows), sourceFlowId).Some? ==>
        var m := LinkedCopy(old(flows), old(execs.flows), old(links.links), old(flows)[FindFlow(old(flows), sourceFlowId).value], name, old(clock.stamp));
        var targets := LinkedIn(m.links, m.copy.id);
        (flows, clock.stamp) == (if targets == [] then (m.flows, m.stamp) else PropagateAll(m.flows, m.flows[FindFlow(m.flows, m.copy.id).value], targets, m.stamp))
      ensures FindFlow(old(flows), sourceFlowId).Some? ==>
        var m := LinkedCopy(old(flows), old(execs.flows), old(links.links), old(flows)[FindFlow(old(flows), sourceFlowId).value], name, old(clock.stamp));
        var targets := LinkedIn(m.links, m.copy.id);
        execs.flows.Keys == m.execs.Keys
        && (forall f :: f in m.execs && f !in targets ==> execs.flows[f] == m.execs[f])
        && (forall i :: 0 <= i < |targets| && targets[i] in m.execs && Once(targets, i) ==>
              RemapOf(m.execs[targets[i]], StepIdMap(m.flows, m.flows[FindFlow(m.flows, m.copy.id).value], targets, m.stamp, i), execs.flows[targets[i]]))
    {
      var found := FindFlow(flows, sourceFlowId);
      if found.None? {
        return None;
      }
      ghost var m := LinkedCopy(flows, execs.flows, links.links, flows[found.value], name, clock.stamp);
      var id := CopyAndLink(name, flows[found.value]);
      assert flows == m.flows && execs.flows == m.execs && links.links == m.links && clock.stamp == m.stamp && id == m.copy.id;
      // `saveWorkflow` in creation mode
      PropagateToLinkedWorkflows(id);
      return Some(id);
    }

    /** The copying and linking steps of `createLinkedWorkflow`, for a found source flow, up to its closing save. */
    method CopyAndLink(name: string, source: Flow) returns (id: string)
      modifies this, execs, clock, links
      ensures var m := LinkedCopy(old(flows), old(execs.flows), old(links.links), source, name, old(clock.stamp));
        id == m.copy.id && flows == m.flows && currentFlowId == id
        && execs.flows == m.execs && links.links == m.links && clock.stamp == m.stamp
    {
      ghost var m := LinkedCopy(flows, execs.flows, links.links, source, name, clock.stamp);
      ghost var expected := CopyList(source.data, clock.stamp + 1);
      id := clock.GenerateId("flow");
      var units := RegenerateAllUnitIds(source.data, source.id, id, clock, execs);
      assert units == expected && id == m.copy.id && execs.flows == m.execs;
      links.LinkNewFlow(id, source.id, clock);
      assert links.links == m.links && clock.stamp == m.stamp;
      flows := flows + [source.(id := id, name := name, data := units.nodes)];
      currentFlowId := id;
    }

    /**
     * One target of `propagateToLinkedWorkflows`: a missing target or one
     * with another template is left alone; otherwise its units are replaced
     * by the regenerated copy of the source's, and its completion map, if it
     * has a record, is re-keyed through the `idMap`.
     */
    method PropagateTo(source: Flow, targetId: string)
      modifies this, execs, clock
      ensures flows == PropagateStep(old(flows), source, targetId, old(clock.stamp)).flows
      ensures clock.stamp == PropagateStep(old(flows), source, targetId, old(clock.stamp)).stamp
      ensures currentFlowId == old(currentFlowId)
      ensures execs.flows.Keys == old(execs.flows).Keys
      ensures forall f :: f in old(execs.flows) && f != targetId ==> execs.flows[f] == old(execs.flows)[f]
      ensures PropagateStep(old(flows), source, targetId, old(clock.stamp)).applied.None? ==> execs.flows == old(execs.flows)
      ensures targetId in old(execs.flows) ==>
        RemapOf(old(execs.flows)[targetId], PropagateStep(old(flows), source, targetId, old(clock.stamp)).idMap, execs.flows[targetId])
      ensures forall f :: f in old(execs.flows) && (forall k :: k in old(execs.flows)[f] ==> k !in UnitIdList(source.data))
                ==> execs.flows[f] == old(execs.flows)[f]
    {
      var found := FindFlow(flows, targetId);
      if found.None? {
        RemapIdentity(if targetId in execs.flows then execs.flows[targetId] else map[]);
        return;
      }
      var target := flows[found.value];
      if target.templateId != source.templateId {
        RemapIdentity(if targetId in execs.flows then execs.flows[targetId] else map[]);
        return;
      }
      var regen := RegenerateAll(source.data, target.data, clock);
      RegenIdMap(source.data, target.data, old(clock.stamp));
      RekeyCompletion(execs, targetId, regen.idMap);
      flows := flows[found.value := target.(data := regen.nodes)];
    }

    /**
     * `propagateToLinkedWorkflows(sourceFlowId)`: nothing happens when the
     * source is linked to nothing or missing; otherwise each linked flow, in
     * order, gets the source's units. No record is added to or removed from
     * the execution state, flows that are not linked keep theirs, and a
     * linked flow whose completion map mentions no source unit id keeps it.
     */
    method PropagateToLinkedWorkflows(sourceFlowId: string)
      modifies this, execs, clock
      ensures execs.flows.Keys == old(execs.flows).Keys
      ensures currentFlowId == old(currentFlowId)
      ensures LinkedIn(links.links, sourceFlowId) == [] || FindFlow(old(flows), sourceFlowId).None? ==>
        flows == old(flows) && execs.flows == old(execs.flows) && clock.stamp == old(clock.stamp)
      ensures LinkedIn(links.links, sourceFlowId) != [] && FindFlow(old(flows), sourceFlowId).Some? ==>
        (flows, clock.stamp) == PropagateAll(old(flows), old(flows)[FindFlow(old(flows), sourceFlowId).value], LinkedIn(links.links, sourceFlowId), old(clock.stamp))
      ensures forall f :: f in old(execs.flows) && f !in LinkedIn(links.links, sourceFlowId) ==> execs.flows[f] == old(execs.flows)[f]
      ensures FindFlow(old(flows), sourceFlowId).Some? ==>
        var source := old(flows)[FindFlow(old(flows), sourceFlowId).value];
        forall f :: f in old(execs.flows) && (forall k :: k in old(execs.flows)[f] ==> k !in UnitIdList(source.data))
          ==> execs.flows[f] == old(execs.flows)[f]
      ensures FindFlow(old(flows), sourceFlowId).Some? ==>
        var source := old(flows)[FindFlow(old(flows), sourceFlowId).value];
        var targets := LinkedIn(links.links, sourceFlowId);
        forall i :: 0 <= i < |targets| && targets[i] in old(execs.flows) && Once(targets, i) ==>
          RemapOf(old(execs.flows)[targets[i]], StepIdMap(old(flows), source, targets, old(clock.stamp), i), execs.flows[targets[i]])
    {
      var targets := links.GetLinkedWorkflows(sourceFlowId);
      if |targets| == 0 {
        return;
      }
      var found := FindFlow(flows, sourceFlowId);
      if found.None? {
        return;
      }
      PropagateEach(flows[found.value], targets);
    }

    /** The `linkedFlowIds.forEach` loop: each target in turn. */
    method PropagateEach(source: Flow, targets: seq<string>)
      modifies this, execs, clock
      ensures (flows, clock.stamp) == PropagateAll(old(flows), source, targets, old(clock.stamp))
      ensures currentFlowId == old(currentFlowId)
      ensures execs.flows.Keys == old(execs.flows).Keys
      ensures forall f :: f in old(execs.flows) && f !in targets ==> execs.flows[f] == old(execs.flows)[f]
      ensures forall f :: f in old(execs.flows) && (forall k :: k in old(execs.flows)[f] ==> k !in UnitIdList(source.data))
                ==> execs.flows[f] == old(execs.flows)[f]
      ensures forall i :: 0 <= i < |targets| && targets[i] in old(execs.flows) && Once(targets, i) ==>
                RemapOf(old(execs.flows)[targets[i]], StepIdMap(old(flows), source, targets, old(clock.stamp), i), execs.flows[targets[i]])
    {
      var i := 0;
      while i < |targets|
        invariant 0 <= i <= |targets|
        invariant (flows, clock.stamp) == PropagateAll(old(flows), source, targets[..i], old(clock.stamp))
        invariant currentFlowId == old(currentFlowId)
        invariant execs.flows.Keys == old(execs.flows).Keys
        invariant forall f :: f in old(execs.flows) && f !in targets[..i] ==> execs.flows[f] == old(execs.flows)[f]
        invariant forall f :: f in old(execs.flows) && (forall k :: k in old(execs.flows)[f] ==> k !in UnitIdList(source.data))
                    ==> execs.flows[f] == old(execs.flows)[f]
        invariant forall j :: 0 <= j < i && targets[j] in old(execs.flows) && Once(targets, j) ==>
                    RemapOf(old(execs.flows)[targets[j]], StepIdMap(old(flows), source, targets, old(clock.stamp), j), execs.flows[targets[j]])
      {
        ghost var before := execs.flows;
        ghost var stepMap := PropagateStep(flows, source, targets[i], clock.stamp).idMap;
        assert stepMap == StepIdMap(old(flows), source, targets, old(clock.stamp), i);
        PropagateTo(source, targets[i]);
        assert targets[i] in old(execs.flows) && Once(targets, i) ==> before[targets[i]] == old(execs.flows)[targets[i]];
        assert targets[..i + 1][..i] == targets[..i];
        assert targets[..i + 1] == targets[..i] + [targets[i]];
        i := i + 1;
      }
      assert targets[..i] == targets;
    }
  }

  /**
   * `if (targetExec) { … targetExec.completed = newCompleted; }`: the flow's
   * completion map, when it has a record, is replaced by its re-keyed copy.
   */
  method RekeyCompletion(execs: Executions, flowId: string, idMap: seq<(string, string)>)
    modifies execs
    ensures execs.flows.Keys == old(execs.flows).Keys
    ensures forall f :: f in old(execs.flows) && f != flowId ==> execs.flows[f] == old(execs.flows)[f]
    ensures flowId in old(execs.flows) ==> RemapOf(old(execs.flows)[flowId], idMap, execs.flows[flowId])
    ensures forall f :: f in old(execs.flows) && (forall k :: k in old(execs.flows)[f] ==> k !in Firsts(idMap))
              ==> execs.flows[f] == old(execs.flows)[f]
  {
    if flowId in execs.flows {
      var completed := RemapCompletion(execs.flows[flowId], idMap);
      UpdateKeeps(execs.flows, flowId, completed);
      RekeyKeepsForeign(execs.flows, flowId, idMap, completed);
      execs.flows := execs.flows[flowId := completed];
    }
  }

  /** Replacing one flow's completion map by a re-keyed copy keeps every map that mentions no re-keyed id. */
  lemma RekeyKeepsForeign(flows: map<string, Completion>, flowId: string, idMap: seq<(string, string)>, completed: Completion)
    requires flowId in flows && RemapOf(flows[flowId], idMap, completed)
    ensures forall f :: f in flows && (forall k :: k in flows[f] ==> k !in Firsts(idMap))
              ==> flows[flowId := completed][f] == flows[f]
  {
    forall f | f in flows && (forall k :: k in flows[f] ==> k !in Firsts(idMap))
      ensures flows[flowId := completed][f] == flows[f]
    {
      if f == flowId {
        RemapKeepsForeignKeys(flows[flowId], idMap, completed);
      }
    }
  }

  /** Replacing the value under a present key keeps the keys and every other value. */
  lemma UpdateKeeps(m: map<string, Completion>, key: string, v: Completion)
    requires key in m
    ensures m[key := v].Keys == m.Keys
    ensures forall f :: f in m && f != key ==> m[key := v][f] == m[f]
  {
  }
}
