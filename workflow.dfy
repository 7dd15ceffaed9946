/**
 * The workflow data model of script.js: a flow's `data` is a forest of units
 * (`subcategories` are the children), shaped by the flow's template snapshot,
 * whose `levels` array gives one level per depth.
 *
 * Optional fields the source tests with `||` are modelled with their fallback
 * already applied: a missing name/description/text is "", missing tags are [],
 * a missing grade is 0, a missing footer has four empty lists.
 */
module Workflow {
  import opened Wrappers

  datatype Note = Note(title: string, content: string)
  /**
   * A footer link: the app stores `{ text, url }` objects; a footer read from
   * elsewhere may hold a bare URL string instead.
   */
  datatype Link = BareLink(address: string) | LinkRecord(url: string, text: string, title: string)
  /** A footer image: the app stores the bare URL string; an object with `url` and `title` is read too. */
  datatype Image = BareImage(address: string) | ImageRecord(url: string, title: string)
  datatype Footer = Footer(links: seq<Link>, images: seq<Image>, notes: seq<Note>, comments: seq<string>)

  datatype Node = Node(
    id: string,
    name: string,
    description: string,
    text: string,
    tags: seq<string>,
    grade: int,
    completed: bool,
    footer: Footer,
    subcategories: seq<Node>)

  datatype Level = Level(singularName: string, gradeCumulative: bool)
  datatype Template = Template(levels: seq<Level>)

  datatype Flow = Flow(
    id: string,
    name: string,
    templateId: string,
    icon: string,
    description: string,
    templateSnapshot: Template,
    data: seq<Node>)

  /** `nodeHasTag`: the unit's own tag list contains `tag`. */
  predicate NodeHasTag(node: Node, tag: string)
  {
    tag in node.tags
  }

  /**
   * A unit's address: the index path `[i, j, ...]` stands for the source's
   * path string `data.i.subcategories.j...`.
   */
  type Path = seq<nat>

  predicate IsProperPrefix(a: Path, b: Path)
  {
    |a| < |b| && b[..|a|] == a
  }

  /** `getObjectByPath` restricted to unit addresses: the unit at `path`, if there is one. */
  function GetByPath(forest: seq<Node>, path: Path): Option<Node>
    decreases path
  {
    if path == [] || path[0] >= |forest| then None
    else if |path| == 1 then Some(forest[path[0]])
    else GetByPath(forest[path[0]].subcategories, path[1..])
  }

  /** The sibling list that `path` points into: the roots for `[]`, otherwise the unit's children. */
  function ChildrenAt(forest: seq<Node>, path: Path): Option<seq<Node>>
  {
    if path == [] then Some(forest)
    else match GetByPath(forest, path)
      case None => None
      case Some(n) => Some(n.subcategories)
  }

  lemma {:induction false} GetByPathExtend(forest: seq<Node>, path: Path, i: nat)
    ensures GetByPath(forest, path + [i]) ==
      match ChildrenAt(forest, path)
      case None => None
      case Some(cs) => if i < |cs| then Some(cs[i]) else None
  {
    if path != [] && path[0] < |forest| && |path| > 1 {
      assert (path + [i])[1..] == path[1..] + [i];
      GetByPathExtend(forest[path[0]].subcategories, path[1..], i);
    } else if path != [] && path[0] < |forest| {
      assert (path + [i])[1..] == [i];
    }
  }

  /** Every prefix of a unit's address addresses a unit (its ancestor). */
  lemma {:induction false} GetByPathPrefix(forest: seq<Node>, path: Path, k: nat)
    requires GetByPath(forest, path).Some?
    requires 1 <= k <= |path|
    ensures GetByPath(forest, path[..k]).Some?
  {
    if k > 1 {
      assert path[..k][1..] == path[1..][..k - 1];
      GetByPathPrefix(forest[path[0]].subcategories, path[1..], k - 1);
    }
  }

  /** One step of a depth-bounded walk: the unit, its address and its depth. */
  datatype Visit = Visit(path: Path, node: Node, depth: nat)

  /**
   * The preorder walk the source writes as `nodes.forEach(node => { visit(node);
   * recurse(node.subcategories, depth + 1) })` guarded by `depth >= levels.length`:
   * `forest` is the sibling list under `prefix` from index `start` on.
   */
  function WalkFrom(forest: seq<Node>, prefix: Path, start: nat, maxDepth: nat): seq<Visit>
    decreases forest
  {
    if forest == [] || |prefix| >= maxDepth then []
    else
      [Visit(prefix + [start], forest[0], |prefix|)]
      + WalkFrom(forest[0].subcategories, prefix + [start], 0, maxDepth)
      + WalkFrom(forest[1..], prefix, start + 1, maxDepth)
  }

  /** The whole walk of a flow's data, down to depth `maxDepth - 1`. */
  function Walk(forest: seq<Node>, maxDepth: nat): seq<Visit>
  {
    WalkFrom(forest, [], 0, maxDepth)
  }

  /** The visits whose unit passes `keep`, in walk order. */
  function Select(vs: seq<Visit>, keep: Node -> bool): (r: seq<Visit>)
    ensures |r| <= |vs|
    ensures forall v :: v in r ==> v in vs && keep(v.node)
    ensures forall v :: v in vs && keep(v.node) ==> v in r
  {
    if vs == [] then []
    else (if keep(vs[0].node) then [vs[0]] else []) + Select(vs[1..], keep)
  }

  lemma {:induction false} SelectAppend(a: seq<Visit>, b: seq<Visit>, keep: Node -> bool)
    ensures Select(a + b, keep) == Select(a, keep) + Select(b, keep)
  {
    if a != [] {
      assert (a + b)[1..] == a[1..] + b;
      SelectAppend(a[1..], b, keep);
    } else {
      assert a + b == b;
    }
  }

  /** Every visit of a walk segment sits inside the segment: under `prefix`, at index `start` or later. */
  lemma {:induction false} WalkFromInSegment(forest: seq<Node>, prefix: Path, start: nat, maxDepth: nat)
    ensures forall v :: v in WalkFrom(forest, prefix, start, maxDepth) ==>
      |prefix| < |v.path| <= maxDepth && v.path[..|prefix|] == prefix && v.path[|prefix|] >= start
      && v.depth == |v.path| - 1
    ensures forall v :: v in WalkFrom(forest, prefix, start, maxDepth) ==>
      v.path[|prefix|] < start + |forest|
    decreases forest
  {
    if forest != [] && |prefix| < maxDepth {
      var p := prefix + [start];
      WalkFromInSegment(forest[0].subcategories, p, 0, maxDepth);
      WalkFromInSegment(forest[1..], prefix, start + 1, maxDepth);
      forall v | v in WalkFrom(forest[0].subcategories, p, 0, maxDepth)
        ensures v.path[..|prefix|] == prefix && v.path[|prefix|] == start
      {
        assert v.path[..|p|][..|prefix|] == prefix;
        assert v.path[..|p|][|prefix|] == start;
      }
    }
  }

  /** Soundness of the walk: each visit's address leads to its unit, at depth |path| - 1 < maxDepth. */
  lemma {:induction false} WalkFromSound(whole: seq<Node>, forest: seq<Node>, prefix: Path, start: nat, maxDepth: nat)
    requires ChildrenAt(whole, prefix).Some?
    requires start <= |ChildrenAt(whole, prefix).value|
    requires forest == ChildrenAt(whole, prefix).value[start..]
    ensures forall v :: v in WalkFrom(forest, prefix, start, maxDepth) ==>
      GetByPath(whole, v.path) == Some(v.node) && v.depth == |v.path| - 1 < maxDepth
    decreases forest
  {
    WalkFromInSegment(forest, prefix, start, maxDepth);
    if forest != [] && |prefix| < maxDepth {
      var p := prefix + [start];
      GetByPathExtend(whole, prefix, start);
      assert GetByPath(whole, p) == Some(forest[0]);
      assert ChildrenAt(whole, p) == Some(forest[0].subcategories);
      WalkFromSound(whole, forest[0].subcategories, p, 0, maxDepth);
      WalkFromSound(whole, forest[1..], prefix, start + 1, maxDepth);
    }
  }

  /** Completeness of the walk: every unit at depth < maxDepth inside the segment is visited. */
  lemma {:induction false} WalkFromComplete(whole: seq<Node>, forest: seq<Node>, prefix: Path, start: nat, maxDepth: nat, path: Path)
    requires ChildrenAt(whole, prefix).Some?
    requires start <= |ChildrenAt(whole, prefix).value|
    requires forest == ChildrenAt(whole, prefix).value[start..]
    requires GetByPath(whole, path).Some? && |path| <= maxDepth
    requires IsProperPrefix(prefix, path) && path[|prefix|] >= start
    ensures exists v :: v in WalkFrom(forest, prefix, start, maxDepth) && v.path == path
    decreases forest
  {
    var cs := ChildrenAt(whole, prefix).value;
    var q := prefix + [path[|prefix|]];
    assert path[..|prefix| + 1] == q;
    GetByPathPrefix(whole, path, |prefix| + 1);
    GetByPathExtend(whole, prefix, path[|prefix|]);
    assert path[|prefix|] < |cs|;
    assert forest != [] && |prefix| < maxDepth;
    var w := WalkFrom(forest, prefix, start, maxDepth);
    var p := prefix + [start];
    var kids := WalkFrom(forest[0].subcategories, p, 0, maxDepth);
    var rest := WalkFrom(forest[1..], prefix, start + 1, maxDepth);
    assert w == [Visit(p, forest[0], |prefix|)] + kids + rest;
    if path[|prefix|] == start {
      if |path| == |prefix| + 1 {
        assert path == p;
        assert w[0].path == path;
      } else {
        assert path[..|p|] == p;
        assert GetByPath(whole, p) == Some(forest[0]);
        assert ChildrenAt(whole, p) == Some(forest[0].subcategories);
        WalkFromComplete(whole, forest[0].subcategories, p, 0, maxDepth, path);
        var v :| v in kids && v.path == path;
        assert v in w;
      }
    } else {
      WalkFromComplete(whole, forest[1..], prefix, start + 1, maxDepth, path);
      var v :| v in rest && v.path == path;
      assert v in w;
    }
  }

  /**
   * The walk of a flow's data lists exactly the units at depth < maxDepth:
   * each visit addresses its unit, and every such unit is visited.
   */
  lemma WalkExact(forest: seq<Node>, maxDepth: nat)
    ensures forall v :: v in Walk(forest, maxDepth) ==>
      GetByPath(forest, v.path) == Some(v.node) && v.depth == |v.path| - 1 < maxDepth
    ensures forall path :: GetByPath(forest, path).Some? && |path| <= maxDepth ==>
      exists v :: v in Walk(forest, maxDepth) && v.path == path
  {
    assert forest[0..] == forest;
    WalkFromSound(forest, forest, [], 0, maxDepth);
    forall path | GetByPath(forest, path).Some? && |path| <= maxDepth
      ensures exists v :: v in Walk(forest, maxDepth) && v.path == path
    {
      WalkFromComplete(forest, forest, [], 0, maxDepth, path);
    }
  }

  /** The ids of a forest's units in preorder (a unit, then its children, then its next siblings). */
  function UnitIdList(forest: seq<Node>): seq<string>
    decreases forest
  {
    if forest == [] then []
    else UnitIdList(forest[..|forest| - 1]) + NodeIds(forest[|forest| - 1])
  }

  /** The ids of a unit and of its descendants, in preorder. */
  function NodeIds(u: Node): seq<string>
    decreases u
  {
    [u.id] + UnitIdList(u.subcategories)
  }

  /** The forest with every id blanked: two forests agree here exactly when they differ in ids only. */
  function StripIds(forest: seq<Node>): seq<Node>
    decreases forest
  {
    if forest == [] then []
    else StripIds(forest[..|forest| - 1]) + [Strip(forest[|forest| - 1])]
  }

  function Strip(u: Node): Node
    decreases u
  {
    u.(id := "", subcategories := StripIds(u.subcategories))
  }

  /** `flows.find(f => f.id === flowId)`: the index of the first flow with that id. */
  function FindFlow(flows: seq<Flow>, flowId: string): (r: Option<nat>)
    ensures r.Some? ==>
      r.value < |flows| && flows[r.value].id == flowId
      && forall j :: 0 <= j < r.value ==> flows[j].id != flowId
    ensures r.None? ==> forall j :: 0 <= j < |flows| ==> flows[j].id != flowId
  {
    if flows == [] then None
    else if flows[0].id == flowId then Some(0)
    else match FindFlow(flows[1..], flowId)
      case None => None
      case Some(i) => Some(i + 1)
  }

  /** The first and second components of a list of pairs. */
  function Firsts(ps: seq<(string, string)>): (r: seq<string>)
    ensures |r| == |ps| && forall i :: 0 <= i < |ps| ==> r[i] == ps[i].0
  {
    if ps == [] then [] else [ps[0].0] + Firsts(ps[1..])
  }

  function Seconds(ps: seq<(string, string)>): (r: seq<string>)
    ensures |r| == |ps| && forall i :: 0 <= i < |ps| ==> r[i] == ps[i].1
  {
    if ps == [] then [] else [ps[0].1] + Seconds(ps[1..])
  }

  lemma FirstsAppend(a: seq<(string, string)>, b: seq<(string, string)>)
    ensures Firsts(a + b) == Firsts(a) + Firsts(b) && Seconds(a + b) == Seconds(a) + Seconds(b)
  {
  }
}
