/**
 * Editing a flow's units by address (script.js `addChildUnit`, `deleteUnit`
 * and the property updates that go through `getObjectByPath`). The source
 * changes the addressed object in place; here an edit returns the new forest.
 */
module Units {
  import opened Wrappers
  import opened Workflow

  /** The forest with the unit at `path` replaced by `f` of it; an address with no unit leaves the forest as it is. */
  function UpdateAt(forest: seq<Node>, path: Path, f: Node -> Node): (r: seq<Node>)
    ensures |r| == |forest|
    decreases path
  {
    if path == [] || path[0] >= |forest| then forest
    else if |path| == 1 then forest[path[0] := f(forest[path[0]])]
    else
      var n := forest[path[0]];
      forest[path[0] := n.(subcategories := UpdateAt(n.subcategories, path[1..], f))]
  }

  /** After an update, the addressed unit is `f` of what was there. */
  lemma {:induction false} UpdateAtHit(forest: seq<Node>, path: Path, f: Node -> Node)
    ensures GetByPath(UpdateAt(forest, path, f), path) ==
      match GetByPath(forest, path)
      case None => None
      case Some(n) => Some(f(n))
    decreases path
  {
    if path != [] && path[0] < |forest| && |path| > 1 {
      UpdateAtHit(forest[path[0]].subcategories, path[1..], f);
    }
  }

  /** Editing an address with no unit changes nothing. */
  lemma {:induction false} UpdateAtMissing(forest: seq<Node>, path: Path, f: Node -> Node)
    requires GetByPath(forest, path).None?
    ensures UpdateAt(forest, path, f) == forest
    decreases path
  {
    if path != [] && path[0] < |forest| && |path| > 1 {
      var n := forest[path[0]];
      UpdateAtMissing(n.subcategories, path[1..], f);
      assert n.(subcategories := n.subcategories) == n;
    }
  }

  /** A unit whose address is neither above nor below the edited one is untouched. */
  lemma {:induction false} UpdateAtElsewhere(forest: seq<Node>, path: Path, f: Node -> Node, q: Path)
    requires !(q <= path) && !(path <= q)
    ensures GetByPath(UpdateAt(forest, path, f), q) == GetByPath(forest, q)
    decreases path
  {
    if path != [] && path[0] < |forest| && |path| > 1 && q != [] && q[0] == path[0] && |q| > 1 {
      assert q == [q[0]] + q[1..] && path == [path[0]] + path[1..];
      assert q[1..] <= path[1..] ==> q <= path;
      assert path[1..] <= q[1..] ==> path <= q;
      UpdateAtElsewhere(forest[path[0]].subcategories, path[1..], f, q[1..]);
    }
  }

  /** Every ancestor of the edited unit keeps all its fields but its children. */
  lemma {:induction false} UpdateAtAncestor(forest: seq<Node>, path: Path, f: Node -> Node, q: Path)
    requires q != [] && IsProperPrefix(q, path) && GetByPath(forest, q).Some?
    ensures GetByPath(UpdateAt(forest, path, f), q).Some?
    ensures GetByPath(UpdateAt(forest, path, f), q).value.(subcategories := GetByPath(forest, q).value.subcategories)
      == GetByPath(forest, q).value
    decreases path
  {
    if |q| > 1 {
      assert q[1..] == path[1..][..|q| - 1];
      UpdateAtAncestor(forest[path[0]].subcategories, path[1..], f, q[1..]);
    }
  }

  /** `m` is `n` with possibly more children added after the existing ones. */
  predicate Grows(n: Node, m: Node)
  {
    m.id == n.id && n.subcategories <= m.subcategories
  }

  /** Appending to a sibling list keeps every address that already led to a unit. */
  lemma {:induction false} GetByPathGrow(forest: seq<Node>, more: seq<Node>, q: Path)
    requires forest <= more && GetByPath(forest, q).Some?
    ensures GetByPath(more, q) == GetByPath(forest, q)
  {
    assert more[q[0]] == forest[q[0]];
  }

  /**
   * When `f` only keeps a unit's id and appends children, every address that
   * led to a unit still leads to a unit with the same id.
   */
  lemma {:induction false} UpdateAtKeepsIds(forest: seq<Node>, path: Path, f: Node -> Node, q: Path)
    requires forall n :: Grows(n, f(n))
    requires GetByPath(forest, q).Some?
    ensures GetByPath(UpdateAt(forest, path, f), q).Some?
    ensures GetByPath(UpdateAt(forest, path, f), q).value.id == GetByPath(forest, q).value.id
    decreases path
  {
    var r := UpdateAt(forest, path, f);
    if path == [] || path[0] >= |forest| || q[0] != path[0] {
      assert r[q[0]] == forest[q[0]];
    } else if |q| > 1 {
      var n := forest[path[0]];
      if |path| == 1 {
        assert Grows(n, f(n));
        GetByPathGrow(n.subcategories, f(n).subcategories, q[1..]);
      } else {
        UpdateAtKeepsIds(n.subcategories, path[1..], f, q[1..]);
      }
    } else if |path| == 1 {
      assert Grows(forest[path[0]], f(forest[path[0]]));
    }
  }

  /** The unit `addChildUnit` creates: an empty name and no children (every optional field at its fallback). */
  function NewUnit(id: string): Node
  {
    Node(id, "", "", "", [], 0, false, Footer([], [], [], []), [])
  }

  function AppendChild(child: Node): Node -> Node
  {
    (n: Node) => n.(subcategories := n.subcategories + [child])
  }

  /**
   * `addChildUnit(parentPath, childDepth)` with `newId` the id it draws: a
   * depth without a level adds nothing; depth 0 appends to the roots whatever
   * the parent address; otherwise the unit is appended to the children of the
   * unit at `parentPath`, and nothing happens when there is none.
   */
  function AddChildUnit(forest: seq<Node>, levels: seq<Level>, parentPath: Path, childDepth: nat, newId: string): seq<Node>
  {
    if childDepth >= |levels| then forest
    else if childDepth == 0 then forest + [NewUnit(newId)]
    else UpdateAt(forest, parentPath, AppendChild(NewUnit(newId)))
  }

  /** Where `addChildUnit` puts the new unit: the roots at depth 0, else the parent's children. */
  function ParentOf(parentPath: Path, childDepth: nat): Path
  {
    if childDepth == 0 then [] else parentPath
  }

  /**
   * The new unit is the last child of its parent (or the last root), and the
   * call changes nothing when the depth has no level or the parent is missing.
   */
  lemma AddChildUnitPlaces(forest: seq<Node>, levels: seq<Level>, parentPath: Path, childDepth: nat, newId: string)
    ensures var target := ParentOf(parentPath, childDepth);
      var r := AddChildUnit(forest, levels, parentPath, childDepth, newId);
      if childDepth < |levels| && (childDepth == 0 || GetByPath(forest, parentPath).Some?)
      then ChildrenAt(r, target) == Some(ChildrenAt(forest, target).value + [NewUnit(newId)])
      else r == forest
  {
    if 0 < childDepth < |levels| {
      UpdateAtHit(forest, parentPath, AppendChild(NewUnit(newId)));
      if GetByPath(forest, parentPath).None? {
        UpdateAtMissing(forest, parentPath, AppendChild(NewUnit(newId)));
      }
    }
  }

  /** Adding a unit moves no existing unit: every address keeps leading to the unit with the same id. */
  lemma AddChildUnitKeepsIds(forest: seq<Node>, levels: seq<Level>, parentPath: Path, childDepth: nat, newId: string, q: Path)
    requires GetByPath(forest, q).Some?
    ensures GetByPath(AddChildUnit(forest, levels, parentPath, childDepth, newId), q).Some?
    ensures GetByPath(AddChildUnit(forest, levels, parentPath, childDepth, newId), q).value.id == GetByPath(forest, q).value.id
  {
    if childDepth < |levels| {
      if childDepth == 0 {
        GetByPathGrow(forest, forest + [NewUnit(newId)], q);
      } else {
        var f := AppendChild(NewUnit(newId));
        assert forall n :: Grows(n, f(n));
        UpdateAtKeepsIds(forest, parentPath, f, q);
      }
    }
  }

  /** `parent.splice(key, 1)`: the list without its entry at `k` (nothing when `k` is past the end). */
  function Without(cs: seq<Node>, k: nat): (r: seq<Node>)
  {
    if k < |cs| then cs[..k] + cs[k + 1..] else cs
  }

  function RemoveChildAt(k: nat): Node -> Node
  {
    (n: Node) => n.(subcategories := Without(n.subcategories, k))
  }

  /**
   * `deleteUnit(path)` with `confirmed` the user's answer to the dialog: a
   * missing unit, a depth (the number of `subcategories` steps, |path| - 1)
   * without a level, or a refusal leaves the forest as it is; otherwise the
   * unit is spliced out of its sibling list.
   */
  function DeleteUnit(forest: seq<Node>, levels: seq<Level>, path: Path, confirmed: bool): seq<Node>
  {
    if GetByPath(forest, path).None? || |path| - 1 >= |levels| || !confirmed then forest
    else
      var parent := path[..|path| - 1];
      var k := path[|path| - 1];
      if parent == [] then Without(forest, k) else UpdateAt(forest, parent, RemoveChildAt(k))
  }

  /** A confirmed delete of an existing unit with a level removes exactly that entry of its sibling list; anything else changes nothing. */
  lemma DeleteUnitRemoves(forest: seq<Node>, levels: seq<Level>, path: Path, confirmed: bool)
    ensures var r := DeleteUnit(forest, levels, path, confirmed);
      if GetByPath(forest, path).Some? && |path| - 1 < |levels| && confirmed
      then
        var parent := path[..|path| - 1];
        var k := path[|path| - 1];
        ChildrenAt(forest, parent).Some? &&
        var cs := ChildrenAt(forest, parent).value;
        k < |cs| && cs[k] == GetByPath(forest, path).value
        && ChildrenAt(r, parent) == Some(cs[..k] + cs[k + 1..])
      else r == forest
  {
    if GetByPath(forest, path).Some? && |path| - 1 < |levels| && confirmed {
      var parent := path[..|path| - 1];
      var k := path[|path| - 1];
      assert path == parent + [k];
      GetByPathExtend(forest, parent, k);
      if parent != [] {
        UpdateAtHit(forest, parent, RemoveChildAt(k));
      }
    }
  }
}
