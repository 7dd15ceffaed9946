/**
 * `CollapseManager` (script.js): per flow, a map from unit id to "collapsed";
 * a unit is shown only while none of its ancestors is collapsed.
 */
module Collapse {
  import opened Wrappers
  import opened Workflow

  /** The ids `collapseAll` (with `parentsOnly`) or `expandAll` (without) write: every unit's, or only those with children. */
  function UnitIds(forest: seq<Node>, parentsOnly: bool): set<string>
    decreases forest
  {
    if forest == [] then {}
    else
      var u := forest[|forest| - 1];
      UnitIds(forest[..|forest| - 1], parentsOnly)
      + ((if !parentsOnly || |u.subcategories| > 0 then {u.id} else {}) + UnitIds(u.subcategories, parentsOnly))
  }

  /** The ids one unit contributes: its own (when it qualifies) and those of its children. */
  function MarkedBy(u: Node, parentsOnly: bool): set<string>
  {
    (if !parentsOnly || |u.subcategories| > 0 then {u.id} else {}) + UnitIds(u.subcategories, parentsOnly)
  }

  /** The unit at some address of `forest` carries `id` (and has children, when `parentsOnly`). */
  ghost predicate HasUnitWithId(forest: seq<Node>, parentsOnly: bool, id: string)
  {
    exists q: Path :: GetByPath(forest, q).Some? && GetByPath(forest, q).value.id == id
      && (parentsOnly ==> |GetByPath(forest, q).value.subcategories| > 0)
  }

  lemma AddressInPrefix(forest: seq<Node>, q: Path)
    requires forest != [] && GetByPath(forest[..|forest| - 1], q).Some?
    ensures GetByPath(forest, q) == GetByPath(forest[..|forest| - 1], q)
  {
    assert forest[q[0]] == forest[..|forest| - 1][q[0]];
  }

  lemma AddressUnderLast(forest: seq<Node>, q: Path)
    requires forest != []
    ensures GetByPath(forest, [|forest| - 1] + q) == Descend(forest[|forest| - 1], q)
  {
    assert ([|forest| - 1] + q)[1..] == q;
  }

  function Descend(u: Node, q: Path): Option<Node>
  {
    if q == [] then Some(u) else GetByPath(u.subcategories, q)
  }

  /** Every unit of the forest contributes its id (when it qualifies). */
  lemma {:induction false} UnitIdsComplete(forest: seq<Node>, parentsOnly: bool, q: Path)
    requires GetByPath(forest, q).Some?
    requires parentsOnly ==> |GetByPath(forest, q).value.subcategories| > 0
    ensures GetByPath(forest, q).value.id in UnitIds(forest, parentsOnly)
    decreases forest
  {
    var last := |forest| - 1;
    var u := forest[last];
    if q[0] < last {
      assert GetByPath(forest[..last], q) == GetByPath(forest, q) by {
        assert forest[..last][q[0]] == forest[q[0]];
      }
      UnitIdsComplete(forest[..last], parentsOnly, q);
    } else if |q| > 1 {
      UnitIdsComplete(u.subcategories, parentsOnly, q[1..]);
    }
  }

  /** Every id collected belongs to a unit of the forest (one with children, when `parentsOnly`). */
  lemma {:induction false} UnitIdsSound(forest: seq<Node>, parentsOnly: bool, id: string)
    requires id in UnitIds(forest, parentsOnly)
    ensures HasUnitWithId(forest, parentsOnly, id)
    decreases forest
  {
    var last := |forest| - 1;
    var u := forest[last];
    if id in UnitIds(forest[..last], parentsOnly) {
      UnitIdsSound(forest[..last], parentsOnly, id);
      var q: Path :| GetByPath(forest[..last], q).Some? && GetByPath(forest[..last], q).value.id == id
        && (parentsOnly ==> |GetByPath(forest[..last], q).value.subcategories| > 0);
      AddressInPrefix(forest, q);
    } else if id in UnitIds(u.subcategories, parentsOnly) {
      UnitIdsSound(u.subcategories, parentsOnly, id);
      var q: Path :| GetByPath(u.subcategories, q).Some? && GetByPath(u.subcategories, q).value.id == id
        && (parentsOnly ==> |GetByPath(u.subcategories, q).value.subcategories| > 0);
      AddressUnderLast(forest, q);
    } else {
      AddressUnderLast(forest, []);
    }
  }

  /** `collapseAll` / `expandAll` write exactly the ids of the forest's units (with children, for `collapseAll`). */
  lemma UnitIdsExact(forest: seq<Node>, parentsOnly: bool, id: string)
    ensures id in UnitIds(forest, parentsOnly) <==> HasUnitWithId(forest, parentsOnly, id)
  {
    if id in UnitIds(forest, parentsOnly) {
      UnitIdsSound(forest, parentsOnly, id);
    }
    if HasUnitWithId(forest, parentsOnly, id) {
      var q: Path :| GetByPath(forest, q).Some? && GetByPath(forest, q).value.id == id
        && (parentsOnly ==> |GetByPath(forest, q).value.subcategories| > 0);
      UnitIdsComplete(forest, parentsOnly, q);
    }
  }

  /** A flow's collapse map with `value` written under every id of `ids`. */
  function SetAll(record: map<string, bool>, ids: set<string>, value: bool): (r: map<string, bool>)
    ensures r.Keys == record.Keys + ids
    ensures forall k :: k in ids ==> r[k] == value
    ensures forall k :: k in record && k !in ids ==> r[k] == record[k]
  {
    map k | k in record.Keys + ids :: if k in ids then value else record[k]
  }

  lemma SetAllUnion(record: map<string, bool>, a: set<string>, b: set<string>, value: bool)
    ensures SetAll(SetAll(record, a, value), b, value) == SetAll(record, a + b, value)
  {
  }

  lemma SetAllOne(record: map<string, bool>, id: string, value: bool)
    ensures record[id := value] == SetAll(record, {id}, value)
  {
  }

  lemma SetAllNone(state: map<string, map<string, bool>>, flowId: string, value: bool)
    requires flowId in state
    ensures state == state[flowId := SetAll(state[flowId], {}, value)]
  {
    assert SetAll(state[flowId], {}, value) == state[flowId];
  }

  /** `collapseState[flowId][unitId] === true`, with a missing flow or unit meaning "expanded". */
  predicate CollapsedIn(state: map<string, map<string, bool>>, flowId: string, unitId: string)
  {
    flowId in state && unitId in state[flowId] && state[flowId][unitId]
  }

  function RecordOf(state: map<string, map<string, bool>>, flowId: string): map<string, bool>
  {
    if flowId in state then state[flowId] else map[]
  }

  /** The unit at `path`, when there is one with a non-empty id (`unit && unit.id`). */
  function IdAt(forest: seq<Node>, path: Path): Option<string>
  {
    match GetByPath(forest, path)
    case Some(u) => if u.id != "" then Some(u.id) else None
    case None => None
  }

  /** `expandWithParents`, after its first `k` steps: every unit on the way to `path` (itself included) marked expanded. */
  function ExpandPath(record: map<string, bool>, forest: seq<Node>, path: Path, k: nat): map<string, bool>
    requires k <= |path|
  {
    if k == 0 then record
    else
      var r := ExpandPath(record, forest, path, k - 1);
      match IdAt(forest, path[..k])
      case Some(id) => r[id := false]
      case None => r
  }

  /** `expandWithParents` marks every unit from the root down to `path` expanded and touches no other id. */
  lemma {:induction false} ExpandPathEffect(record: map<string, bool>, forest: seq<Node>, path: Path, k: nat)
    requires k <= |path|
    ensures forall j :: 1 <= j <= k && IdAt(forest, path[..j]).Some? ==>
      IdAt(forest, path[..j]).value in ExpandPath(record, forest, path, k)
      && !ExpandPath(record, forest, path, k)[IdAt(forest, path[..j]).value]
    ensures forall id :: (forall j :: 1 <= j <= k ==> IdAt(forest, path[..j]) != Some(id)) ==>
      (id in ExpandPath(record, forest, path, k) <==> id in record)
      && (id in record ==> ExpandPath(record, forest, path, k)[id] == record[id])
  {
    if k > 0 {
      ExpandPathEffect(record, forest, path, k - 1);
    }
  }

  /** `isVisible`: no proper ancestor of the unit at `path` (one with a non-empty id) is collapsed. */
  ghost predicate Visible(record: map<string, bool>, forest: seq<Node>, path: Path)
  {
    forall k :: 1 <= k < |path| && IdAt(forest, path[..k]).Some? ==>
      !(IdAt(forest, path[..k]).value in record && record[IdAt(forest, path[..k]).value])
  }

  /** After `expandWithParents(path)` the unit at `path` is visible and not itself collapsed. */
  lemma ExpandWithParentsShows(record: map<string, bool>, forest: seq<Node>, path: Path)
    ensures Visible(ExpandPath(record, forest, path, |path|), forest, path)
    ensures path != [] && IdAt(forest, path).Some? ==>
      IdAt(forest, path).value in ExpandPath(record, forest, path, |path|)
      && !ExpandPath(record, forest, path, |path|)[IdAt(forest, path).value]
  {
    ExpandPathEffect(record, forest, path, |path|);
    if path != [] {
      assert path[..|path|] == path;
    }
  }

  /** After `expandAll`, every unit of the forest is visible. */
  lemma ExpandAllShows(record: map<string, bool>, forest: seq<Node>, path: Path)
    ensures Visible(SetAll(record, UnitIds(forest, false), false), forest, path)
  {
    forall k | 1 <= k < |path| && IdAt(forest, path[..k]).Some?
      ensures IdAt(forest, path[..k]).value in UnitIds(forest, false)
    {
      UnitIdsComplete(forest, false, path[..k]);
    }
  }

  /** After `collapseAll`, no unit below the roots is visible (its root has children, so it is collapsed) unless that root's id is empty. */
  lemma CollapseAllHides(record: map<string, bool>, forest: seq<Node>, path: Path)
    requires |path| >= 2 && GetByPath(forest, path).Some? && IdAt(forest, path[..1]).Some?
    ensures !Visible(SetAll(record, UnitIds(forest, true), true), forest, path)
  {
    GetByPathPrefix(forest, path, 1);
    var root := GetByPath(forest, path[..1]).value;
    assert root == forest[path[0]];
    assert |root.subcategories| > 0;
    UnitIdsComplete(forest, true, path[..1]);
  }

  /** `appState.collapseState` and the `CollapseManager` methods that use it. */
  class CollapseManager {
    var collapseState: map<string, map<string, bool>>

    constructor (initial: map<string, map<string, bool>>)
      ensures collapseState == initial
    {
      collapseState := initial;
    }

    /** `isCollapsed(flowId, unitId)`: false unless `true` is stored. */
    function IsCollapsed(flowId: string, unitId: string): (b: bool)
      reads this
      ensures b <==> CollapsedIn(collapseState, flowId, unitId)
    {
      flowId in collapseState && unitId in collapseState[flowId] && collapseState[flowId][unitId]
    }

    /** `toggle(flowId, unitId, unit)`: stores and returns the opposite of the current state (remembering children's states stores nothing). */
    method Toggle(flowId: string, unitId: string) returns (newState: bool)
      modifies this
      ensures newState == !old(IsCollapsed(flowId, unitId))
      ensures collapseState == old(collapseState)[flowId := RecordOf(old(collapseState), flowId)[unitId := newState]]
      ensures IsCollapsed(flowId, unitId) == newState
    {
      if flowId !in collapseState {
        collapseState := collapseState[flowId := map[]];
      }
      newState := !IsCollapsed(flowId, unitId);
      collapseState := collapseState[flowId := collapseState[flowId][unitId := newState]];
    }

    /** `expandWithParents(flowId, path)` over the current flow's units `forest`. */
    method ExpandWithParents(flowId: string, forest: seq<Node>, path: Path)
      modifies this
      ensures collapseState == old(collapseState)[flowId := ExpandPath(RecordOf(old(collapseState), flowId), forest, path, |path|)]
    {
      ghost var record := RecordOf(collapseState, flowId);
      if flowId !in collapseState {
        collapseState := collapseState[flowId := map[]];
      }
      var k := 1;
      while k <= |path|
        invariant 1 <= k <= |path| + 1
        invariant collapseState == old(collapseState)[flowId := ExpandPath(record, forest, path, k - 1)]
      {
        var unit := GetByPath(forest, path[..k]);
        if unit.Some? && unit.value.id != "" {
          collapseState := collapseState[flowId := collapseState[flowId][unit.value.id := false]];
        }
        k := k + 1;
      }
    }

    /** Writes `value` under the id of every unit of `items` (only those with children, when `parentsOnly`), recursing into children. */
    method MarkUnits(flowId: string, items: seq<Node>, parentsOnly: bool, value: bool)
      requires flowId in collapseState
      modifies this
      ensures collapseState == old(collapseState)[flowId := SetAll(old(collapseState)[flowId], UnitIds(items, parentsOnly), value)]
      decreases items
    {
      ghost var record := collapseState[flowId];
      var i := 0;
      assert UnitIds(items[..0], parentsOnly) == {};
      assert SetAll(record, {}, value) == record;
      assert collapseState[flowId := record] == collapseState;
      while i < |items|
        invariant 0 <= i <= |items|
        invariant collapseState == old(collapseState)[flowId := SetAll(record, UnitIds(items[..i], parentsOnly), value)]
      {
        assert items[..i + 1][..i] == items[..i];
        ghost var before := UnitIds(items[..i], parentsOnly);
        MarkUnit(flowId, items[i], parentsOnly, value);
        SetAllUnion(record, before, MarkedBy(items[i], parentsOnly), value);
        i := i + 1;
      }
      assert items[..i] == items;
    }

    /** One step of the `forEach`: the unit's own id when it qualifies, then its children. */
    method MarkUnit(flowId: string, unit: Node, parentsOnly: bool, value: bool)
      requires flowId in collapseState
      modifies this
      ensures collapseState == old(collapseState)[flowId := SetAll(old(collapseState)[flowId], MarkedBy(unit, parentsOnly), value)]
      decreases unit
    {
      var record := collapseState[flowId];
      ghost var own: set<string> := {};
      if !parentsOnly || |unit.subcategories| > 0 {
        SetAllOne(record, unit.id, value);
        collapseState := collapseState[flowId := record[unit.id := value]];
        own := {unit.id};
      } else {
        SetAllNone(old(collapseState), flowId, value);
      }
      if |unit.subcategories| > 0 {
        MarkUnits(flowId, unit.subcategories, parentsOnly, value);
        SetAllUnion(record, own, UnitIds(unit.subcategories, parentsOnly), value);
      } else {
        assert MarkedBy(unit, parentsOnly) == own;
      }
    }

    /** `collapseAll(flowId, units)`: every unit with children becomes collapsed. */
    method CollapseAll(flowId: string, units: seq<Node>)
      modifies this
      ensures collapseState == old(collapseState)[flowId := SetAll(RecordOf(old(collapseState), flowId), UnitIds(units, true), true)]
    {
      if flowId !in collapseState {
        collapseState := collapseState[flowId := map[]];
      }
      MarkUnits(flowId, units, true, true);
    }

    /** `expandAll(flowId, units)`: every unit becomes expanded. */
    method ExpandAll(flowId: string, units: seq<Node>)
      modifies this
      ensures collapseState == old(collapseState)[flowId := SetAll(RecordOf(old(collapseState), flowId), UnitIds(units, false), false)]
    {
      if flowId !in collapseState {
        collapseState := collapseState[flowId := map[]];
      }
      MarkUnits(flowId, units, false, false);
    }

    /** `isVisible(flowId, path)` over the current flow's units `forest`: checks each proper ancestor in turn. */
    method IsVisible(flowId: string, forest: seq<Node>, path: Path) returns (visible: bool)
      ensures visible <==> Visible(RecordOf(collapseState, flowId), forest, path)
    {
      var record := RecordOf(collapseState, flowId);
      var k := 1;
      while k < |path|
        invariant 1 <= k <= |path| || (path == [] && k == 1)
        invariant forall j :: 1 <= j < k && IdAt(forest, path[..j]).Some? ==>
          !(IdAt(forest, path[..j]).value in record && record[IdAt(forest, path[..j]).value])
      {
        var parent := IdAt(forest, path[..k]);
        if parent.Some? && IsCollapsed(flowId, parent.value) {
          return false;
        }
        k := k + 1;
      }
      return true;
    }
  }
}
