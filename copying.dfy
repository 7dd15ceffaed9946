/**
 * Copying a flow (script.js `copyWorkflow`, and the same steps in
 * `createLinkedWorkflow`): every unit of the copy gets a fresh
 * `generateId('unit')`, in preorder, and each unit completed in the source
 * flow is marked completed, under its new id, in the new flow.
 */
module Copying {
  import opened Wrappers
  import opened Ids
  import opened Workflow
  import opened Execution

  /** A unit after `regenerateUnitIds`: the copy, the (old id, new id) pairs in preorder, and the clock. */
  datatype Copied = Copied(node: Node, pairs: seq<(string, string)>, stamp: nat)

  /** A list of units after `forEach(regenerateUnitIds)`, in the same form. */
  datatype CopiedList = CopiedList(nodes: seq<Node>, pairs: seq<(string, string)>, stamp: nat)

  /** `regenerateUnitIds(unit)`: the unit takes the next `unit-` id, then its children follow. */
  function CopyNode(u: Node, stamp: nat): Copied
    decreases u
  {
    var id := Mint("unit", stamp);
    var kids := CopyList(u.subcategories, stamp + 1);
    Copied(u.(id := id, subcategories := kids.nodes), [(u.id, id)] + kids.pairs, kids.stamp)
  }

  function CopyList(units: seq<Node>, stamp: nat): (r: CopiedList)
    ensures |r.nodes| == |units|
    decreases units
  {
    if units == [] then CopiedList([], [], stamp)
    else
      var before := CopyList(units[..|units| - 1], stamp);
      var one := CopyNode(units[|units| - 1], before.stamp);
      CopiedList(before.nodes + [one.node], before.pairs + one.pairs, one.stamp)
  }

  /** The ids `unit-<stamp>`, `unit-<stamp + 1>`, … in order. */
  predicate Consecutive(ids: seq<string>, stamp: nat)
  {
    forall i :: 0 <= i < |ids| ==> ids[i] == Mint("unit", stamp + i)
  }

  lemma ConsecutiveAppend(a: seq<string>, b: seq<string>, stamp: nat)
    requires Consecutive(a, stamp) && Consecutive(b, stamp + |a|)
    ensures Consecutive(a + b, stamp)
  {
    forall i | 0 <= i < |a + b|
      ensures (a + b)[i] == Mint("unit", stamp + i)
    {
      if i >= |a| {
        assert (a + b)[i] == b[i - |a|];
      }
    }
  }

  /** Consecutive ids are pairwise distinct. */
  lemma ConsecutiveDistinct(ids: seq<string>, stamp: nat)
    requires Consecutive(ids, stamp)
    ensures forall i, j :: 0 <= i < j < |ids| ==> ids[i] != ids[j]
  {
    forall i, j | 0 <= i < j < |ids|
      ensures ids[i] != ids[j]
    {
      if ids[i] == ids[j] {
        MintInjective("unit", stamp + i, stamp + j);
      }
    }
  }

  /**
   * A copied unit: the pairs list the old ids of the unit and its
   * descendants, in preorder, against the new ones, which are the next
   * `NodeIds(u)` ids of the clock in order.
   */
  lemma {:induction false} CopyNodeIds(u: Node, stamp: nat)
    ensures var r := CopyNode(u, stamp);
      Firsts(r.pairs) == NodeIds(u) && Seconds(r.pairs) == NodeIds(r.node)
      && r.stamp == stamp + |NodeIds(u)| && Consecutive(NodeIds(r.node), stamp)
    decreases u
  {
    var kids := CopyList(u.subcategories, stamp + 1);
    CopyListIds(u.subcategories, stamp + 1);
    FirstsAppend([(u.id, Mint("unit", stamp))], kids.pairs);
    ConsecutiveAppend([Mint("unit", stamp)], UnitIdList(kids.nodes), stamp);
  }

  /** The same for a list of units: the copies' ids are the clock's next ids, in preorder. */
  lemma {:induction false} CopyListIds(units: seq<Node>, stamp: nat)
    ensures var r := CopyList(units, stamp);
      Firsts(r.pairs) == UnitIdList(units) && Seconds(r.pairs) == UnitIdList(r.nodes)
      && r.stamp == stamp + |UnitIdList(units)| && Consecutive(UnitIdList(r.nodes), stamp)
    decreases units
  {
    if units != [] {
      var i := |units| - 1;
      var r := CopyList(units, stamp);
      var before := CopyList(units[..i], stamp);
      var one := CopyNode(units[i], before.stamp);
      CopyListIds(units[..i], stamp);
      CopyNodeIds(units[i], before.stamp);
      FirstsAppend(before.pairs, one.pairs);
      assert r.nodes[..i] == before.nodes && r.nodes[i] == one.node;
      ConsecutiveAppend(UnitIdList(before.nodes), NodeIds(one.node), stamp);
    }
  }

  /** A copied unit keeps every field and the shape of its source, ids aside. */
  lemma {:induction false} CopyNodeShape(u: Node, stamp: nat)
    ensures Strip(CopyNode(u, stamp).node) == Strip(u)
    decreases u
  {
    CopyListShape(u.subcategories, stamp + 1);
  }

  lemma {:induction false} CopyListShape(units: seq<Node>, stamp: nat)
    ensures StripIds(CopyList(units, stamp).nodes) == StripIds(units)
    decreases units
  {
    if units != [] {
      var i := |units| - 1;
      var r := CopyList(units, stamp);
      var before := CopyList(units[..i], stamp);
      CopyListShape(units[..i], stamp);
      CopyNodeShape(units[i], before.stamp);
      assert r.nodes[..i] == before.nodes;
    }
  }

  /** Every unit of a copy has its own id: no two units of the copied flow share one. */
  lemma CopiedIdsDistinct(units: seq<Node>, stamp: nat)
    ensures var ids := UnitIdList(CopyList(units, stamp).nodes);
      |ids| == |UnitIdList(units)|
      && forall i, j :: 0 <= i < j < |ids| ==> ids[i] != ids[j]
  {
    CopyListIds(units, stamp);
    ConsecutiveDistinct(UnitIdList(CopyList(units, stamp).nodes), stamp);
  }

  /**
   * The execution-state step of `regenerateUnitIds` for one pair: the source's
   * record is ensured, and when it marks the old id completed the new flow's
   * record (ensured too) marks the new id the same.
   */
  function CarryOne(flows: map<string, Completion>, sourceFlowId: string, newFlowId: string, pair: (string, string)): map<string, Completion>
  {
    var e := Ensured(flows, sourceFlowId);
    if CompletedIn(e, sourceFlowId, pair.0) then WithCompleted(e, newFlowId, pair.1, true) else e
  }

  /** The execution-state steps for all pairs, in order. */
  function CarryAll(flows: map<string, Completion>, sourceFlowId: string, newFlowId: string, pairs: seq<(string, string)>): map<string, Completion>
  {
    if pairs == [] then flows
    else CarryOne(CarryAll(flows, sourceFlowId, newFlowId, pairs[..|pairs| - 1]), sourceFlowId, newFlowId, pairs[|pairs| - 1])
  }

  lemma {:induction false} CarryAppend(flows: map<string, Completion>, sourceFlowId: string, newFlowId: string, a: seq<(string, string)>, b: seq<(string, string)>)
    ensures CarryAll(flows, sourceFlowId, newFlowId, a + b) == CarryAll(CarryAll(flows, sourceFlowId, newFlowId, a), sourceFlowId, newFlowId, b)
    decreases |b|
  {
    if b == [] {
      assert a + b == a;
    } else {
      var i := |b| - 1;
      assert (a + b)[..|a + b| - 1] == a + b[..i];
      CarryAppend(flows, sourceFlowId, newFlowId, a, b[..i]);
    }
  }

  /**
   * Copying leaves every other flow's record alone, and the source's record
   * keeps its entries; the source's record is created when the source has
   * units and had none.
   */
  lemma {:induction false} CarryKeepsOthers(flows: map<string, Completion>, sourceFlowId: string, newFlowId: string, pairs: seq<(string, string)>)
    requires newFlowId != sourceFlowId
    ensures var r := CarryAll(flows, sourceFlowId, newFlowId, pairs);
      (forall f :: f != newFlowId ==> (f in r <==> f in flows || (f == sourceFlowId && pairs != [])))
      && (forall f :: f != newFlowId && f in flows ==> r[f] == flows[f])
      && (sourceFlowId !in flows && pairs != [] ==> r[sourceFlowId] == map[])
  {
    if pairs != [] {
      CarryKeepsOthers(flows, sourceFlowId, newFlowId, pairs[..|pairs| - 1]);
    }
  }

  /** Some pair maps an old id the source marks completed to `k`. */
  ghost predicate CarriedTo(flows: map<string, Completion>, sourceFlowId: string, pairs: seq<(string, string)>, k: string)
  {
    exists i :: 0 <= i < |pairs| && pairs[i].1 == k && CompletedIn(flows, sourceFlowId, pairs[i].0)
  }

  /** Some pair's old id is marked completed in the source. */
  ghost predicate AnyCarried(flows: map<string, Completion>, sourceFlowId: string, pairs: seq<(string, string)>)
  {
    exists i :: 0 <= i < |pairs| && CompletedIn(flows, sourceFlowId, pairs[i].0)
  }

  lemma CarriedSnoc(flows: map<string, Completion>, sourceFlowId: string, pairs: seq<(string, string)>, k: string)
    requires pairs != []
    ensures var init := pairs[..|pairs| - 1];
      var last := pairs[|pairs| - 1];
      (CarriedTo(flows, sourceFlowId, pairs, k) <==> CarriedTo(flows, sourceFlowId, init, k) || (k == last.1 && CompletedIn(flows, sourceFlowId, last.0)))
      && (AnyCarried(flows, sourceFlowId, pairs) <==> AnyCarried(flows, sourceFlowId, init) || CompletedIn(flows, sourceFlowId, last.0))
  {
    var init := pairs[..|pairs| - 1];
    if CarriedTo(flows, sourceFlowId, pairs, k) {
      var i :| 0 <= i < |pairs| && pairs[i].1 == k && CompletedIn(flows, sourceFlowId, pairs[i].0);
      if i < |init| {
        assert init[i] == pairs[i];
      }
    }
    if CarriedTo(flows, sourceFlowId, init, k) {
      var i :| 0 <= i < |init| && init[i].1 == k && CompletedIn(flows, sourceFlowId, init[i].0);
      assert pairs[i] == init[i];
    }
    if AnyCarried(flows, sourceFlowId, pairs) {
      var i :| 0 <= i < |pairs| && CompletedIn(flows, sourceFlowId, pairs[i].0);
      if i < |init| {
        assert init[i] == pairs[i];
      }
    }
    if AnyCarried(flows, sourceFlowId, init) {
      var i :| 0 <= i < |init| && CompletedIn(flows, sourceFlowId, init[i].0);
      assert pairs[i] == init[i];
    }
  }

  /** One step marks the new id when the source marks the old one, and changes no other answer about the new flow. */
  lemma CarryOneReads(flows: map<string, Completion>, sourceFlowId: string, newFlowId: string, pair: (string, string), k: string)
    requires newFlowId != sourceFlowId
    ensures var r := CarryOne(flows, sourceFlowId, newFlowId, pair);
      (CompletedIn(r, newFlowId, k) <==> CompletedIn(flows, newFlowId, k) || (k == pair.1 && CompletedIn(flows, sourceFlowId, pair.0)))
      && (newFlowId in r <==> newFlowId in flows || CompletedIn(flows, sourceFlowId, pair.0))
      && ((newFlowId in flows ==> forall x :: x in flows[newFlowId] ==> flows[newFlowId][x]) ==>
          newFlowId in r ==> forall x :: x in r[newFlowId] ==> r[newFlowId][x])
  {
    var e := Ensured(flows, sourceFlowId);
    WithCompletedReads(e, newFlowId, pair.1, true, newFlowId, k);
  }

  /**
   * The new flow marks exactly the new ids paired with old ids the source
   * marks, and it has a record only when at least one such unit was found
   * (`ensureExecFlow(newFlow.id)` runs only then).
   */
  lemma {:induction false} CarryMarks(flows: map<string, Completion>, sourceFlowId: string, newFlowId: string, pairs: seq<(string, string)>, k: string)
    requires newFlowId != sourceFlowId && newFlowId !in flows
    ensures var r := CarryAll(flows, sourceFlowId, newFlowId, pairs);
      (CompletedIn(r, newFlowId, k) <==> CarriedTo(flows, sourceFlowId, pairs, k))
      && (newFlowId in r <==> AnyCarried(flows, sourceFlowId, pairs))
      && (newFlowId in r ==> forall x :: x in r[newFlowId] ==> r[newFlowId][x])
  {
    if pairs != [] {
      var init := pairs[..|pairs| - 1];
      var last := pairs[|pairs| - 1];
      var before := CarryAll(flows, sourceFlowId, newFlowId, init);
      CarryMarks(flows, sourceFlowId, newFlowId, init, k);
      CarryKeepsOthers(flows, sourceFlowId, newFlowId, init);
      assert CompletedIn(before, sourceFlowId, last.0) == CompletedIn(flows, sourceFlowId, last.0);
      CarryOneReads(before, sourceFlowId, newFlowId, last, k);
      CarriedSnoc(flows, sourceFlowId, pairs, k);
    }
  }

  /** With distinct new ids, pair `i`'s new id is carried exactly when its old id is marked. */
  lemma CarriedExact(flows: map<string, Completion>, sourceFlowId: string, pairs: seq<(string, string)>, i: nat)
    requires i < |pairs|
    requires forall a, b :: 0 <= a < b < |pairs| ==> pairs[a].1 != pairs[b].1
    ensures CarriedTo(flows, sourceFlowId, pairs, pairs[i].1) <==> CompletedIn(flows, sourceFlowId, pairs[i].0)
  {
    if CarriedTo(flows, sourceFlowId, pairs, pairs[i].1) {
      var j :| 0 <= j < |pairs| && pairs[j].1 == pairs[i].1 && CompletedIn(flows, sourceFlowId, pairs[j].0);
      assert j == i;
    }
  }

  /**
   * What copying promises about completion: the `i`-th unit of the copy, in
   * preorder, is completed in the new flow exactly when the `i`-th unit of
   * the source is completed in the source flow.
   */
  lemma CopyCarriesCompletion(flows: map<string, Completion>, sourceFlowId: string, newFlowId: string, units: seq<Node>, stamp: nat, i: nat)
    requires newFlowId != sourceFlowId && newFlowId !in flows
    requires i < |UnitIdList(units)|
    ensures var c := CopyList(units, stamp);
      i < |UnitIdList(c.nodes)|
      && (CompletedIn(CarryAll(flows, sourceFlowId, newFlowId, c.pairs), newFlowId, UnitIdList(c.nodes)[i])
          <==> CompletedIn(flows, sourceFlowId, UnitIdList(units)[i]))
  {
    var c := CopyList(units, stamp);
    var ids := UnitIdList(c.nodes);
    CopyListIds(units, stamp);
    CopiedIdsDistinct(units, stamp);
    assert Seconds(c.pairs) == ids && Firsts(c.pairs) == UnitIdList(units);
    assert c.pairs[i].1 == ids[i] && c.pairs[i].0 == UnitIdList(units)[i];
    forall a, b | 0 <= a < b < |c.pairs|
      ensures c.pairs[a].1 != c.pairs[b].1
    {
      assert c.pairs[a].1 == ids[a] && c.pairs[b].1 == ids[b];
    }
    CarriedExact(flows, sourceFlowId, c.pairs, i);
    CarryMarks(flows, sourceFlowId, newFlowId, c.pairs, ids[i]);
  }


  /** `regenerateUnitIds(unit)` with `appState.executions` and the clock. */
  method RegenerateUnitIds(unit: Node, sourceFlowId: string, newFlowId: string, clock: IdClock, execs: Executions) returns (r: Copied)
    modifies clock, execs
    ensures r == CopyNode(unit, old(clock.stamp)) && clock.stamp == r.stamp
    ensures execs.flows == CarryAll(old(execs.flows), sourceFlowId, newFlowId, r.pairs)
    decreases unit
  {
    var oldId := unit.id;
    var id := clock.GenerateId("unit");
    var exec := execs.EnsureExecFlow(sourceFlowId);
    if oldId in exec && exec[oldId] {
      execs.SetCompleted(newFlowId, id, exec[oldId]);
    }
    ghost var afterOne := execs.flows;
    assert afterOne == CarryAll(old(execs.flows), sourceFlowId, newFlowId, [(oldId, id)]);
    var kids := RegenerateAllUnitIds(unit.subcategories, sourceFlowId, newFlowId, clock, execs);
    r := Copied(unit.(id := id, subcategories := kids.nodes), [(oldId, id)] + kids.pairs, clock.stamp);
    CarryAppend(old(execs.flows), sourceFlowId, newFlowId, [(oldId, id)], kids.pairs);
  }

  /** `units.forEach(regenerateUnitIds)`. */
  method RegenerateAllUnitIds(units: seq<Node>, sourceFlowId: string, newFlowId: string, clock: IdClock, execs: Executions) returns (r: CopiedList)
    modifies clock, execs
    ensures r == CopyList(units, old(clock.stamp)) && clock.stamp == r.stamp
    ensures execs.flows == CarryAll(old(execs.flows), sourceFlowId, newFlowId, r.pairs)
    decreases units
  {
    r := CopiedList([], [], clock.stamp);
    var i := 0;
    while i < |units|
      invariant 0 <= i <= |units|
      invariant r == CopyList(units[..i], old(clock.stamp)) && clock.stamp == r.stamp
      invariant execs.flows == CarryAll(old(execs.flows), sourceFlowId, newFlowId, r.pairs)
    {
      ghost var before := execs.flows;
      var one := RegenerateUnitIds(units[i], sourceFlowId, newFlowId, clock, execs);
      CarryAppend(old(execs.flows), sourceFlowId, newFlowId, r.pairs, one.pairs);
      assert units[..i + 1][..i] == units[..i];
      r := CopiedList(r.nodes + [one.node], r.pairs + one.pairs, one.stamp);
      i := i + 1;
    }
    assert units[..i] == units;
  }
}
