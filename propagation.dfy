/**
 * `propagateToLinkedWorkflows` (script.js): the source flow's units are copied
 * into every linked flow with the same template. A copied unit takes the id
 * of the target's unit at the same index path when there is one, and a fresh
 * id otherwise; the target's completion map is then re-keyed through the map
 * from source ids to the ids given out.
 */
module Propagation {
  import opened Wrappers
  import opened Ids
  import opened Workflow

  /** One unit after `regenerateIds`: the copy, the `idMap` entries set for it and its descendants, and the clock. */
  datatype Renewed = Renewed(node: Node, idMap: seq<(string, string)>, stamp: nat)

  /** A list of units after `regenerateIds`, in the same form. */
  datatype Regen = Regen(nodes: seq<Node>, idMap: seq<(string, string)>, stamp: nat)

  /** `units[i]`, which is `undefined` past the end. */
  function At(units: seq<Node>, i: nat): Option<Node>
  {
    if i < |units| then Some(units[i]) else None
  }

  /**
   * `regenerateIds(node, targetNode)`: with a target unit the copy takes its
   * id; without one it gets `generateId(<old id up to the first dash>)`. The
   * pair (old id, new id) is recorded, then the children follow, each against
   * the target's child at the same index.
   */
  function RegenNode(n: Node, target: Option<Node>, stamp: nat): (r: Renewed)
    ensures r.stamp >= stamp
    ensures target.None? ==> r.stamp > stamp
    decreases n
  {
    var id := if target.Some? then target.value.id else Mint(FirstSegment(n.id), stamp);
    var kids := RegenFrom(n.subcategories, if target.Some? then target.value.subcategories else [], if target.Some? then stamp else stamp + 1);
    Renewed(n.(id := id, subcategories := kids.nodes), [(n.id, id)] + kids.idMap, kids.stamp)
  }

  /** The `forEach((node, idx) => regenerateIds(node, target[idx]))` over a list of copies. */
  function RegenFrom(src: seq<Node>, tgt: seq<Node>, stamp: nat): (r: Regen)
    ensures r.stamp >= stamp && |r.nodes| == |src|
    decreases src
  {
    if src == [] then Regen([], [], stamp)
    else
      var i := |src| - 1;
      var before := RegenFrom(src[..i], tgt, stamp);
      var one := RegenNode(src[i], At(tgt, i), before.stamp);
      Regen(before.nodes + [one.node], before.idMap + one.idMap, one.stamp)
  }

  /** A copy has its source unit's fields and shape, ids aside. */
  lemma {:induction false} RegenNodeShape(n: Node, target: Option<Node>, stamp: nat)
    ensures Strip(RegenNode(n, target, stamp).node) == Strip(n)
    decreases n
  {
    RegenShape(n.subcategories, if target.Some? then target.value.subcategories else [], if target.Some? then stamp else stamp + 1);
  }

  /** The copies have the source's shape and every field but the id. */
  lemma {:induction false} RegenShape(src: seq<Node>, tgt: seq<Node>, stamp: nat)
    ensures StripIds(RegenFrom(src, tgt, stamp).nodes) == StripIds(src)
    decreases src
  {
    if src != [] {
      var i := |src| - 1;
      var r := RegenFrom(src, tgt, stamp);
      var before := RegenFrom(src[..i], tgt, stamp);
      RegenShape(src[..i], tgt, stamp);
      RegenNodeShape(src[i], At(tgt, i), before.stamp);
      assert r.nodes[..i] == before.nodes;
    }
  }

  /** The entries set for a unit pair its old ids with its copy's, in preorder. */
  lemma {:induction false} RegenNodeIdMap(n: Node, target: Option<Node>, stamp: nat)
    ensures Firsts(RegenNode(n, target, stamp).idMap) == NodeIds(n)
    ensures Seconds(RegenNode(n, target, stamp).idMap) == NodeIds(RegenNode(n, target, stamp).node)
    decreases n
  {
    var id := if target.Some? then target.value.id else Mint(FirstSegment(n.id), stamp);
    var kids := RegenFrom(n.subcategories, if target.Some? then target.value.subcategories else [], if target.Some? then stamp else stamp + 1);
    RegenIdMap(n.subcategories, if target.Some? then target.value.subcategories else [], if target.Some? then stamp else stamp + 1);
    FirstsAppend([(n.id, id)], kids.idMap);
  }

  /**
   * `idMap` pairs, in preorder, each source unit's id with the id its copy
   * got: its keys are the source's ids and its values the copies' ids.
   */
  lemma {:induction false} RegenIdMap(src: seq<Node>, tgt: seq<Node>, stamp: nat)
    ensures Firsts(RegenFrom(src, tgt, stamp).idMap) == UnitIdList(src)
    ensures Seconds(RegenFrom(src, tgt, stamp).idMap) == UnitIdList(RegenFrom(src, tgt, stamp).nodes)
    decreases src
  {
    if src != [] {
      var i := |src| - 1;
      var r := RegenFrom(src, tgt, stamp);
      var before := RegenFrom(src[..i], tgt, stamp);
      var one := RegenNode(src[i], At(tgt, i), before.stamp);
      RegenIdMap(src[..i], tgt, stamp);
      RegenNodeIdMap(src[i], At(tgt, i), before.stamp);
      FirstsAppend(before.idMap, one.idMap);
      assert r.nodes[..i] == before.nodes && r.nodes[i] == one.node;
    }
  }

  /** The copy at index `j` is the one `regenerateIds` makes against the target's unit `j`, on the clock left by the earlier copies. */
  lemma {:induction false} RegenAt(src: seq<Node>, tgt: seq<Node>, stamp: nat, j: nat)
    requires j < |src|
    ensures var sj := RegenFrom(src[..j], tgt, stamp).stamp;
      var one := RegenNode(src[j], At(tgt, j), sj);
      stamp <= sj && one.stamp <= RegenFrom(src, tgt, stamp).stamp
      && RegenFrom(src, tgt, stamp).nodes[j] == one.node
    decreases src
  {
    var i := |src| - 1;
    var before := RegenFrom(src[..i], tgt, stamp);
    var last := RegenNode(src[i], At(tgt, i), before.stamp);
    assert RegenFrom(src, tgt, stamp) == Regen(before.nodes + [last.node], before.idMap + last.idMap, last.stamp);
    if j < i {
      var pre := src[..i];
      RegenAt(pre, tgt, stamp, j);
      assert pre[..j] == src[..j];
      assert pre[j] == src[j];
    } else {
      assert src[..j] == src[..i];
    }
  }

  /**
   * The copy at each index path of the source: it takes the id of the
   * target's unit at the same path if there is one, and otherwise an id
   * minted from the clock after `stamp`, under the old id's first segment.
   */
  lemma {:induction false} RegenIds(src: seq<Node>, tgt: seq<Node>, stamp: nat, q: Path)
    requires GetByPath(src, q).Some?
    ensures var r := RegenFrom(src, tgt, stamp);
      GetByPath(r.nodes, q).Some?
      && (GetByPath(tgt, q).Some? ==> GetByPath(r.nodes, q).value.id == GetByPath(tgt, q).value.id)
      && (GetByPath(tgt, q).None? ==>
            exists s :: stamp <= s < r.stamp && GetByPath(r.nodes, q).value.id == Mint(FirstSegment(GetByPath(src, q).value.id), s))
    decreases q
  {
    var j := q[0];
    RegenAt(src, tgt, stamp, j);
    var sj := RegenFrom(src[..j], tgt, stamp).stamp;
    var t := At(tgt, j);
    var one := RegenNode(src[j], t, sj);
    if |q| > 1 {
      var sub := if t.Some? then t.value.subcategories else [];
      var kids := RegenFrom(src[j].subcategories, sub, if t.Some? then sj else sj + 1);
      assert one.node.subcategories == kids.nodes && one.stamp == kids.stamp;
      assert GetByPath(tgt, q) == GetByPath(sub, q[1..]);
      RegenIds(src[j].subcategories, sub, if t.Some? then sj else sj + 1, q[1..]);
    } else if t.None? {
      assert sj < RegenFrom(src, tgt, stamp).stamp;
      assert one.node.id == Mint(FirstSegment(src[j].id), sj);
    }
  }

  /** `idMap.get(k)`: the value of the last entry set under `k`. */
  function Lookup(idMap: seq<(string, string)>, k: string): (r: Option<string>)
    ensures r.None? <==> k !in Firsts(idMap)
  {
    if idMap == [] then None
    else if idMap[|idMap| - 1].0 == k then Some(idMap[|idMap| - 1].1)
    else
      assert Firsts(idMap) == Firsts(idMap[..|idMap| - 1]) + [idMap[|idMap| - 1].0] by {
        FirstsAppend(idMap[..|idMap| - 1], [idMap[|idMap| - 1]]);
        assert idMap == idMap[..|idMap| - 1] + [idMap[|idMap| - 1]];
      }
      Lookup(idMap[..|idMap| - 1], k)
  }

  /** `idMap.get(oldId) || oldId`: the mapped id, unless there is none or it is empty. */
  function Renamed(idMap: seq<(string, string)>, k: string): string
  {
    match Lookup(idMap, k)
    case Some(v) => if v != "" then v else k
    case None => k
  }

  /**
   * What the re-keying loop may produce, whatever order `Object.entries`
   * visits the keys in: the keys are the renamed old keys, and each value is
   * the old value of some key renamed to it.
   */
  ghost predicate RemapOf(completed: map<string, bool>, idMap: seq<(string, string)>, r: map<string, bool>)
  {
    (forall k :: k in completed ==> Renamed(idMap, k) in r)
    && (forall n :: n in r ==> exists k :: k in completed && Renamed(idMap, k) == n && r[n] == completed[k])
  }

  /** Where no two old keys are renamed to the same key, every old entry reappears under its new key. */
  lemma RemapExact(completed: map<string, bool>, idMap: seq<(string, string)>, r: map<string, bool>, k: string)
    requires RemapOf(completed, idMap, r) && k in completed
    requires forall a, b :: a in completed && b in completed && Renamed(idMap, a) == Renamed(idMap, b) ==> a == b
    ensures Renamed(idMap, k) in r && r[Renamed(idMap, k)] == completed[k]
  {
  }

  /**
   * Keys that are no source unit's id are kept as they are: when the target's
   * completion map mentions no source id, re-keying leaves it unchanged, so
   * matched units keep their marks and marks of vanished units stay.
   */
  lemma RemapKeepsForeignKeys(completed: map<string, bool>, idMap: seq<(string, string)>, r: map<string, bool>)
    requires RemapOf(completed, idMap, r)
    requires forall k :: k in completed ==> k !in Firsts(idMap)
    ensures r == completed
  {
    forall k | k in completed
      ensures Renamed(idMap, k) == k
    {
    }
  }

  /** With an empty `idMap` every key is kept: re-keying may only give back the same map. */
  lemma RemapIdentity(completed: map<string, bool>)
    ensures RemapOf(completed, [], completed)
  {
    forall n | n in completed
      ensures Renamed([], n) == n
    {
    }
  }

  /**
   * The re-keying loop over `Object.entries(targetExec.completed)`: each entry
   * is stored under `idMap.get(oldId) || oldId` in a fresh map. The entries
   * are taken in an unspecified order, so the result is any map `RemapOf` allows.
   */
  method RemapCompletion(completed: map<string, bool>, idMap: seq<(string, string)>) returns (r: map<string, bool>)
    ensures RemapOf(completed, idMap, r)
  {
    r := map[];
    var todo := completed.Keys;
    while todo != {}
      invariant todo <= completed.Keys
      invariant forall k :: k in completed && k !in todo ==> Renamed(idMap, k) in r
      invariant forall n :: n in r ==> exists k :: k in completed && k !in todo && Renamed(idMap, k) == n && r[n] == completed[k]
      decreases todo
    {
      var k :| k in todo;
      var newId := Renamed(idMap, k);
      r := r[newId := completed[k]];
      todo := todo - {k};
    }
  }

  /**
   * Completion follows position: when the target's completion map mentions no
   * source unit id, it is kept as it is, and every unit of the source that
   * the target also has at that index path keeps the target unit's id, so it
   * keeps its mark.
   */
  lemma PropagationKeepsMatchedMarks(src: seq<Node>, tgt: seq<Node>, stamp: nat, completed: map<string, bool>, r: map<string, bool>, q: Path)
    requires RemapOf(completed, RegenFrom(src, tgt, stamp).idMap, r)
    requires forall k :: k in completed ==> k !in UnitIdList(src)
    requires GetByPath(src, q).Some? && GetByPath(tgt, q).Some?
    ensures r == completed
    ensures GetByPath(RegenFrom(src, tgt, stamp).nodes, q).Some?
    ensures GetByPath(RegenFrom(src, tgt, stamp).nodes, q).value.id == GetByPath(tgt, q).value.id
  {
    RegenIdMap(src, tgt, stamp);
    RemapKeepsForeignKeys(completed, RegenFrom(src, tgt, stamp).idMap, r);
    RegenIds(src, tgt, stamp, q);
  }

  /** `regenerateIds(node, targetNode)` on the shared clock. */
  method RegenerateIds(node: Node, target: Option<Node>, clock: IdClock) returns (r: Renewed)
    modifies clock
    ensures r == RegenNode(node, target, old(clock.stamp)) && clock.stamp == r.stamp
    decreases node
  {
    var id;
    if target.Some? {
      id := target.value.id;
    } else {
      id := clock.GenerateId(FirstSegment(node.id));
    }
    var kids := RegenerateAll(node.subcategories, if target.Some? then target.value.subcategories else [], clock);
    r := Renewed(node.(id := id, subcategories := kids.nodes), [(node.id, id)] + kids.idMap, clock.stamp);
  }

  /** `src.forEach((node, idx) => regenerateIds(node, tgt[idx]))`, collecting the entries set into one `idMap`. */
  method RegenerateAll(src: seq<Node>, tgt: seq<Node>, clock: IdClock) returns (r: Regen)
    modifies clock
    ensures r == RegenFrom(src, tgt, old(clock.stamp)) && clock.stamp == r.stamp
    decreases src
  {
    r := Regen([], [], clock.stamp);
    var i := 0;
    while i < |src|
      invariant 0 <= i <= |src|
      invariant r == RegenFrom(src[..i], tgt, old(clock.stamp)) && clock.stamp == r.stamp
    {
      var one := RegenerateIds(src[i], At(tgt, i), clock);
      assert src[..i + 1][..i] == src[..i];
      r := Regen(r.nodes + [one.node], r.idMap + one.idMap, one.stamp);
      i := i + 1;
    }
    assert src[..i] == src;
  }

  /** One target's turn: the new flows, the clock, and the `idMap` (empty when the target was skipped). */
  datatype Step = Step(flows: seq<Flow>, stamp: nat, idMap: seq<(string, string)>, applied: Option<nat>)

  /**
   * One iteration of `linkedFlowIds.forEach`: a missing target, or one with a
   * different template, is skipped; otherwise only the target's `data` is
   * replaced by the regenerated copy of the source's.
   */
  function PropagateStep(flows: seq<Flow>, source: Flow, targetId: string, stamp: nat): (r: Step)
    ensures |r.flows| == |flows| && r.stamp >= stamp
  {
    match FindFlow(flows, targetId)
    case None => Step(flows, stamp, [], None)
    case Some(j) =>
      if flows[j].templateId != source.templateId then Step(flows, stamp, [], None)
      else
        var g := RegenFrom(source.data, flows[j].data, stamp);
        Step(flows[j := flows[j].(data := g.nodes)], g.stamp, g.idMap, Some(j))
  }

  /** A step changes only the target's units: its other fields, and every other flow, stay as they were. */
  lemma PropagateStepTouchesOnlyData(flows: seq<Flow>, source: Flow, targetId: string, stamp: nat)
    ensures var r := PropagateStep(flows, source, targetId, stamp);
      (r.applied.None? ==> r.flows == flows && r.stamp == stamp)
      && (r.applied.Some? ==>
            var j := r.applied.value;
            r.applied == FindFlow(flows, targetId)
            && j < |flows| && flows[j].id == targetId && flows[j].templateId == source.templateId
            && r.flows[j] == flows[j].(data := r.flows[j].data)
            && StripIds(r.flows[j].data) == StripIds(source.data)
            && forall i :: 0 <= i < |flows| && i != j ==> r.flows[i] == flows[i])
      && Firsts(r.idMap) == (if r.applied.Some? then UnitIdList(source.data) else [])
      && (FindFlow(flows, targetId).None? ==> r.applied.None?)
      && (FindFlow(flows, targetId).Some? && flows[FindFlow(flows, targetId).value].templateId == source.templateId ==> r.applied.Some?)
  {
    if FindFlow(flows, targetId).Some? {
      var j := FindFlow(flows, targetId).value;
      RegenShape(source.data, flows[j].data, stamp);
      RegenIdMap(source.data, flows[j].data, stamp);
    }
  }

  /** The flow a step applies to gets the source's units, ids aside. */
  lemma StepCopies(flows: seq<Flow>, source: Flow, targetId: string, stamp: nat, j: nat)
    requires FindFlow(flows, targetId) == Some(j) && flows[j].templateId == source.templateId
    ensures StripIds(PropagateStep(flows, source, targetId, stamp).flows[j].data) == StripIds(source.data)
  {
    RegenShape(source.data, flows[j].data, stamp);
  }

  /** A step leaves every flow with another id alone. */
  lemma StepElsewhere(flows: seq<Flow>, source: Flow, targetId: string, stamp: nat, j: nat)
    requires j < |flows| && flows[j].id != targetId
    ensures PropagateStep(flows, source, targetId, stamp).flows[j] == flows[j]
  {
  }

  /** The flows and the clock after the targets `targets`, taken in order. */
  function PropagateAll(flows: seq<Flow>, source: Flow, targets: seq<string>, stamp: nat): (r: (seq<Flow>, nat))
    ensures |r.0| == |flows| && r.1 >= stamp
  {
    if targets == [] then (flows, stamp)
    else
      var before := PropagateAll(flows, source, targets[..|targets| - 1], stamp);
      var step := PropagateStep(before.0, source, targets[|targets| - 1], before.1);
      (step.flows, step.stamp)
  }

  /** The `i`-th target is the only entry with its id. */
  predicate Once(targets: seq<string>, i: nat)
  {
    i < |targets| && forall j :: 0 <= j < |targets| && j != i ==> targets[j] != targets[i]
  }

  /**
   * The `idMap` the `i`-th target is re-keyed with: that of its step, run on
   * the flows and clock the earlier targets left. It maps the source's unit
   * ids when the step applies, and is empty when the target is skipped.
   */
  function StepIdMap(flows: seq<Flow>, source: Flow, targets: seq<string>, stamp: nat, i: nat): (r: seq<(string, string)>)
    requires i < |targets|
    ensures Firsts(r) == [] || Firsts(r) == UnitIdList(source.data)
  {
    var before := PropagateAll(flows, source, targets[..i], stamp);
    PropagateStepTouchesOnlyData(before.0, source, targets[i], before.1);
    PropagateStep(before.0, source, targets[i], before.1).idMap
  }

  /** Flows whose id is no target keep every field, and every flow keeps its id, name and template. */
  lemma {:induction false} PropagateAllKeepsOthers(flows: seq<Flow>, source: Flow, targets: seq<string>, stamp: nat)
    ensures var r := PropagateAll(flows, source, targets, stamp).0;
      forall i :: 0 <= i < |flows| ==>
        r[i] == flows[i].(data := r[i].data)
        && (flows[i].id !in targets ==> r[i] == flows[i])
  {
    if targets != [] {
      var init := targets[..|targets| - 1];
      var before := PropagateAll(flows, source, init, stamp);
      PropagateAllKeepsOthers(flows, source, init, stamp);
      PropagateStepTouchesOnlyData(before.0, source, targets[|targets| - 1], before.1);
      assert forall t :: t in init ==> t in targets;
    }
  }

  /** `find` by id gives the same answer on two flow lists with the same ids in the same order. */
  lemma {:induction false} FindFlowSameIds(a: seq<Flow>, b: seq<Flow>, flowId: string)
    requires |a| == |b| && forall i :: 0 <= i < |a| ==> a[i].id == b[i].id
    ensures FindFlow(a, flowId) == FindFlow(b, flowId)
  {
    if a != [] && a[0].id != flowId {
      FindFlowSameIds(a[1..], b[1..], flowId);
    }
  }

  /**
   * Every linked flow found with the source's template ends up with the
   * source's units, ids aside, whatever comes after it in the list.
   */
  lemma {:induction false} PropagateAllCopies(flows: seq<Flow>, source: Flow, targets: seq<string>, stamp: nat, t: string)
    requires t in targets && FindFlow(flows, t).Some?
    requires flows[FindFlow(flows, t).value].templateId == source.templateId
    ensures StripIds(PropagateAll(flows, source, targets, stamp).0[FindFlow(flows, t).value].data) == StripIds(source.data)
  {
    var j := FindFlow(flows, t).value;
    var init := targets[..|targets| - 1];
    var last := targets[|targets| - 1];
    var before := PropagateAll(flows, source, init, stamp);
    var step := PropagateStep(before.0, source, last, before.1);
    assert PropagateAll(flows, source, targets, stamp).0 == step.flows;
    PropagateAllKeepsOthers(flows, source, init, stamp);
    assert before.0[j].id == t && before.0[j].templateId == source.templateId;
    if last == t {
      FindFlowSameIds(before.0, flows, t);
      StepCopies(before.0, source, last, before.1, j);
    } else {
      assert t in init by {
        assert targets == init + [last];
      }
      PropagateAllCopies(flows, source, init, stamp, t);
      StepElsewhere(before.0, source, last, before.1, j);
    }
  }

}
