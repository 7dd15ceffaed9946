/**
 * The dynamic list of `executeWorkflowExport` (`buildDynamicNodes` in
 * export-to-board-module.js): a preorder, depth-bounded walk that turns every
 * unit with a connection or task type into an entry, skips the others while
 * still visiting their children, and links entries to the unit's board card.
 */
module ExportDynamic {
  import opened Wrappers
  import opened Ids
  import opened Workflow
  import opened Board
  import opened ExportConfig
  import opened ExportCards
  import opened Seqs

  /** `config.dynamicListTypes[node.id]`, a missing entry read as `skip`. */
  function TypeOf(config: Config, id: string): NodeType
  {
    if id in config.dynamicListTypes then config.dynamicListTypes[id] else Skip
  }

  predicate Included(config: Config, node: Node)
  {
    TypeOf(config, node.id) != Skip
  }

  function IncludedBy(config: Config): Node -> bool
  {
    node => Included(config, node)
  }

  /** `cardIdToLink`: the second of two cards, the only card, or none. */
  function LinkedCards(cardIdMap: map<string, seq<string>>, id: string): seq<string>
  {
    var ids := if id in cardIdMap then cardIdMap[id] else [];
    if |ids| > 1 then [ids[1]] else if |ids| == 1 then [ids[0]] else []
  }

  /** A linked id is always one of the unit's own card ids, and a unit without cards links nothing. */
  lemma LinkedCardsChoice(cardIdMap: map<string, seq<string>>, id: string)
    ensures |LinkedCards(cardIdMap, id)| <= 1
    ensures LinkedCards(cardIdMap, id) == [] <==> id !in cardIdMap || cardIdMap[id] == []
    ensures forall x :: x in LinkedCards(cardIdMap, id) ==> id in cardIdMap && x in cardIdMap[id]
    ensures id in cardIdMap && |cardIdMap[id]| >= 2 ==> LinkedCards(cardIdMap, id) == [cardIdMap[id][1]]
  {
  }

  /** What the walk needs from its surroundings; `stamp` is the id clock when the walk starts. */
  datatype DynContext = DynContext(config: Config, levels: seq<Level>, cardIdMap: map<string, seq<string>>, stamp: nat)

  /** The entry for an included unit: the `order`-th entry of the list, its id minted from the clock. */
  function Entry(ctx: DynContext, node: Node, depth: nat, parent: Option<string>, order: nat): DynamicNode
    requires depth < |ctx.levels|
  {
    var t := TypeOf(ctx.config, node.id);
    DynamicNode(Mint("dyn-node", ctx.stamp + order), CardTitle(node, ctx.levels[depth]), t, parent, depth, order,
                LinkedCards(ctx.cardIdMap, node.id),
                if t == Task then Some(TaskData(CardText(node), node.completed)) else None)
  }

  /**
   * `buildDynamicNodes(nodes, parentDynamicId, depth)` for the siblings
   * `forest` under `prefix` from index `start` on; `order` is the number of
   * entries pushed before.
   */
  function DynFrom(forest: seq<Node>, prefix: Path, start: nat, parent: Option<string>, order: nat, ctx: DynContext): seq<DynamicNode>
    decreases forest
  {
    if forest == [] || |prefix| >= |ctx.levels| then []
    else
      var node := forest[0];
      var p := prefix + [start];
      if !Included(ctx.config, node) then
        var kids := DynFrom(node.subcategories, p, 0, parent, order, ctx);
        kids + DynFrom(forest[1..], prefix, start + 1, parent, order + |kids|, ctx)
      else
        var me := Entry(ctx, node, |prefix|, parent, order);
        var kids := DynFrom(node.subcategories, p, 0, Some(me.id), order + 1, ctx);
        [me] + kids + DynFrom(forest[1..], prefix, start + 1, parent, order + 1 + |kids|, ctx)
  }

  /** Entry `k` is the entry of the `k`-th selected visit, whatever its parent. */
  predicate EntriesMatch(s: seq<Visit>, r: seq<DynamicNode>, order: nat, ctx: DynContext)
  {
    |s| == |r| && forall k :: 0 <= k < |r| ==>
      s[k].depth < |ctx.levels| && r[k] == Entry(ctx, s[k].node, s[k].depth, r[k].parentId, order + k)
  }

  /** Among the visits before `k`, `j` is the last whose unit is an ancestor of unit `k`. */
  predicate NearestAncestor(s: seq<Visit>, j: nat, k: nat)
    requires j < k < |s|
  {
    IsProperPrefix(s[j].path, s[k].path) && forall i :: j < i < k ==> !IsProperPrefix(s[i].path, s[k].path)
  }

  predicate NoAncestorBefore(s: seq<Visit>, k: nat)
    requires k < |s|
  {
    forall i :: 0 <= i < k ==> !IsProperPrefix(s[i].path, s[k].path)
  }

  /** Each entry's parent is the entry of its nearest included ancestor, or `parent` when it has none. */
  predicate ParentsMatch(s: seq<Visit>, r: seq<DynamicNode>, parent: Option<string>)
    requires |s| == |r|
  {
    forall k :: 0 <= k < |r| ==>
      && (NoAncestorBefore(s, k) ==> r[k].parentId == parent)
      && (forall j :: 0 <= j < k && NearestAncestor(s, j, k) ==> r[k].parentId == Some(r[j].id))
  }

  lemma EntriesConcat(sa: seq<Visit>, ra: seq<DynamicNode>, sb: seq<Visit>, rb: seq<DynamicNode>, order: nat, ctx: DynContext)
    requires EntriesMatch(sa, ra, order, ctx) && EntriesMatch(sb, rb, order + |ra|, ctx)
    ensures EntriesMatch(sa + sb, ra + rb, order, ctx)
  {
    var s, r := sa + sb, ra + rb;
    forall k | 0 <= k < |r|
      ensures s[k].depth < |ctx.levels| && r[k] == Entry(ctx, s[k].node, s[k].depth, r[k].parentId, order + k)
    {
      if k >= |ra| {
        assert s[k] == sb[k - |ra|] && r[k] == rb[k - |ra|];
      }
    }
  }

  /** Two runs of entries compose when no unit of the first run is an ancestor of a unit of the second. */
  lemma ParentsConcat(sa: seq<Visit>, ra: seq<DynamicNode>, sb: seq<Visit>, rb: seq<DynamicNode>, parent: Option<string>)
    requires |sa| == |ra| && |sb| == |rb|
    requires ParentsMatch(sa, ra, parent) && ParentsMatch(sb, rb, parent)
    requires forall i, k :: 0 <= i < |sa| && 0 <= k < |sb| ==> !IsProperPrefix(sa[i].path, sb[k].path)
    ensures ParentsMatch(sa + sb, ra + rb, parent)
  {
    var s, r := sa + sb, ra + rb;
    assert forall i :: 0 <= i < |sa| ==> s[i] == sa[i] && r[i] == ra[i];
    forall k | 0 <= k < |r|
      ensures NoAncestorBefore(s, k) ==> r[k].parentId == parent
      ensures forall j :: 0 <= j < k && NearestAncestor(s, j, k) ==> r[k].parentId == Some(r[j].id)
    {
      if k < |sa| {
        assert s[k] == sa[k] && r[k] == ra[k];
        if NoAncestorBefore(s, k) {
          assert NoAncestorBefore(sa, k);
        }
        forall j | 0 <= j < k && NearestAncestor(s, j, k)
          ensures r[k].parentId == Some(r[j].id)
        {
          assert NearestAncestor(sa, j, k);
        }
      } else {
        var kb := k - |sa|;
        assert s[k] == sb[kb] && r[k] == rb[kb];
        if NoAncestorBefore(s, k) {
          forall i | 0 <= i < kb
            ensures !IsProperPrefix(sb[i].path, sb[kb].path)
          {
            assert s[|sa| + i] == sb[i];
          }
        }
        forall j | 0 <= j < k && NearestAncestor(s, j, k)
          ensures r[k].parentId == Some(r[j].id)
        {
          if j < |sa| {
            assert false;
          }
          var jb := j - |sa|;
          assert s[j] == sb[jb] && r[j] == rb[jb];
          forall i | jb < i < kb
            ensures !IsProperPrefix(sb[i].path, sb[kb].path)
          {
            assert s[|sa| + i] == sb[i];
          }
          assert NearestAncestor(sb, jb, kb);
        }
      }
    }
  }

  /** An included unit followed by its descendants' entries, which all hang below it. */
  lemma ParentsUnder(a: Visit, ra: DynamicNode, sb: seq<Visit>, rb: seq<DynamicNode>, parent: Option<string>)
    requires |sb| == |rb| && ra.parentId == parent
    requires ParentsMatch(sb, rb, Some(ra.id))
    requires forall k :: 0 <= k < |sb| ==> IsProperPrefix(a.path, sb[k].path)
    ensures ParentsMatch([a] + sb, [ra] + rb, parent)
  {
    var s, r := [a] + sb, [ra] + rb;
    forall k | 0 <= k < |r|
      ensures NoAncestorBefore(s, k) ==> r[k].parentId == parent
      ensures forall j :: 0 <= j < k && NearestAncestor(s, j, k) ==> r[k].parentId == Some(r[j].id)
    {
      if k > 0 {
        var kb := k - 1;
        assert s[k] == sb[kb] && r[k] == rb[kb];
        assert !NoAncestorBefore(s, k) by {
          assert s[0] == a;
        }
        forall j | 0 <= j < k && NearestAncestor(s, j, k)
          ensures r[k].parentId == Some(r[j].id)
        {
          if j == 0 {
            forall i | 0 <= i < kb
              ensures !IsProperPrefix(sb[i].path, sb[kb].path)
            {
              assert s[i + 1] == sb[i];
            }
            assert NoAncestorBefore(sb, kb);
          } else {
            assert s[j] == sb[j - 1] && r[j] == rb[j - 1];
            forall i | j - 1 < i < kb
              ensures !IsProperPrefix(sb[i].path, sb[kb].path)
            {
              assert s[i + 1] == sb[i];
            }
            assert NearestAncestor(sb, j - 1, kb);
          }
        }
      }
    }
  }

  /** Paths that differ at a position both have are not ancestor and descendant. */
  lemma DivergeNotPrefix(a: Path, b: Path, m: nat)
    requires m < |a| && m < |b| && a[m] != b[m]
    ensures !IsProperPrefix(a, b)
  {
  }

  predicate AllUnder(s: seq<Visit>, p: Path)
  {
    forall k :: 0 <= k < |s| ==> IsProperPrefix(p, s[k].path)
  }

  predicate NoneAbove(sa: seq<Visit>, sb: seq<Visit>)
  {
    forall i, k :: 0 <= i < |sa| && 0 <= k < |sb| ==> !IsProperPrefix(sa[i].path, sb[k].path)
  }

  /** The included units of the walk of a sibling run, in walk order. */
  function SelWalk(forest: seq<Node>, prefix: Path, start: nat, ctx: DynContext): seq<Visit>
  {
    Select(WalkFrom(forest, prefix, start, |ctx.levels|), IncludedBy(ctx.config))
  }

  /** How one step of the walk splits: the unit, the selected visits below it, and those of its later siblings. */
  lemma WalkStepSplit(forest: seq<Node>, prefix: Path, start: nat, ctx: DynContext)
    requires forest != [] && |prefix| < |ctx.levels|
    ensures SelWalk(forest, prefix, start, ctx)
      == Select([Visit(prefix + [start], forest[0], |prefix|)], IncludedBy(ctx.config))
         + SelWalk(forest[0].subcategories, prefix + [start], 0, ctx)
         + SelWalk(forest[1..], prefix, start + 1, ctx)
  {
    var L, keep := |ctx.levels|, IncludedBy(ctx.config);
    var p := prefix + [start];
    var me := Visit(p, forest[0], |prefix|);
    var wKids := WalkFrom(forest[0].subcategories, p, 0, L);
    var wRest := WalkFrom(forest[1..], prefix, start + 1, L);
    assert WalkFrom(forest, prefix, start, L) == [me] + wKids + wRest;
    SelectAppend([me] + wKids, wRest, keep);
    SelectAppend([me], wKids, keep);
  }

  /** The units below the step's unit hang under it, and neither it nor they are ancestors of its later siblings' units. */
  lemma WalkStepPaths(forest: seq<Node>, prefix: Path, start: nat, ctx: DynContext)
    requires forest != [] && |prefix| < |ctx.levels|
    ensures var p := prefix + [start];
      var sKids := SelWalk(forest[0].subcategories, p, 0, ctx);
      var sRest := SelWalk(forest[1..], prefix, start + 1, ctx);
      && AllUnder(sKids, p)
      && NoneAbove(sKids, sRest)
      && NoneAbove([Visit(p, forest[0], |prefix|)], sRest)
  {
    var L, keep := |ctx.levels|, IncludedBy(ctx.config);
    var p := prefix + [start];
    var wKids := WalkFrom(forest[0].subcategories, p, 0, L);
    var wRest := WalkFrom(forest[1..], prefix, start + 1, L);
    WalkFromInSegment(forest[0].subcategories, p, 0, L);
    WalkFromInSegment(forest[1..], prefix, start + 1, L);
    var sKids, sRest := Select(wKids, keep), Select(wRest, keep);
    forall k | 0 <= k < |sKids|
      ensures IsProperPrefix(p, sKids[k].path) && sKids[k].path[|prefix|] == start
    {
      assert sKids[k] in wKids;
      assert sKids[k].path[..|p|][|prefix|] == sKids[k].path[|prefix|];
    }
    forall k | 0 <= k < |sRest|
      ensures |prefix| < |sRest[k].path| && sRest[k].path[|prefix|] > start
    {
      assert sRest[k] in wRest;
    }
    forall i, k | 0 <= i < |sKids| && 0 <= k < |sRest|
      ensures !IsProperPrefix(sKids[i].path, sRest[k].path)
    {
      DivergeNotPrefix(sKids[i].path, sRest[k].path, |prefix|);
    }
    forall k | 0 <= k < |sRest|
      ensures !IsProperPrefix(p, sRest[k].path)
    {
      DivergeNotPrefix(p, sRest[k].path, |prefix|);
    }
  }

  /** One unfolding of `DynFrom` at a skipped unit. */
  lemma SkipUnfold(forest: seq<Node>, prefix: Path, start: nat, parent: Option<string>, order: nat, ctx: DynContext)
    requires forest != [] && |prefix| < |ctx.levels| && !Included(ctx.config, forest[0])
    ensures var kids := DynFrom(forest[0].subcategories, prefix + [start], 0, parent, order, ctx);
      DynFrom(forest, prefix, start, parent, order, ctx)
      == kids + DynFrom(forest[1..], prefix, start + 1, parent, order + |kids|, ctx)
  {
  }

  /** One step of the walk at a skipped unit selects nothing for the unit itself. */
  lemma SkipSplit(forest: seq<Node>, prefix: Path, start: nat, ctx: DynContext)
    requires forest != [] && |prefix| < |ctx.levels| && !Included(ctx.config, forest[0])
    ensures SelWalk(forest, prefix, start, ctx)
      == SelWalk(forest[0].subcategories, prefix + [start], 0, ctx) + SelWalk(forest[1..], prefix, start + 1, ctx)
  {
    WalkStepSplit(forest, prefix, start, ctx);
    var e := Select([Visit(prefix + [start], forest[0], |prefix|)], IncludedBy(ctx.config));
    assert e == [];
    var a := SelWalk(forest[0].subcategories, prefix + [start], 0, ctx);
    assert e + a == a;
  }

  /** One unfolding of `DynFrom` at an included unit. */
  lemma IncludedUnfold(forest: seq<Node>, prefix: Path, start: nat, parent: Option<string>, order: nat, ctx: DynContext)
    requires forest != [] && |prefix| < |ctx.levels| && Included(ctx.config, forest[0])
    ensures var me := Entry(ctx, forest[0], |prefix|, parent, order);
      var kids := DynFrom(forest[0].subcategories, prefix + [start], 0, Some(me.id), order + 1, ctx);
      DynFrom(forest, prefix, start, parent, order, ctx)
      == [me] + kids + DynFrom(forest[1..], prefix, start + 1, parent, order + 1 + |kids|, ctx)
  {
  }

  /** `IncludedUnfold` for an entry and its two sub-lists already named by the caller. */
  lemma IncludedUnfoldNamed(forest: seq<Node>, prefix: Path, start: nat, parent: Option<string>, order: nat, ctx: DynContext,
                            me: DynamicNode, kids: seq<DynamicNode>, rest: seq<DynamicNode>)
    requires forest != [] && |prefix| < |ctx.levels| && Included(ctx.config, forest[0])
    requires me == Entry(ctx, forest[0], |prefix|, parent, order)
    requires kids == DynFrom(forest[0].subcategories, prefix + [start], 0, Some(me.id), order + 1, ctx)
    requires rest == DynFrom(forest[1..], prefix, start + 1, parent, order + 1 + |kids|, ctx)
    ensures DynFrom(forest, prefix, start, parent, order, ctx) == [me] + kids + rest
  {
    IncludedUnfold(forest, prefix, start, parent, order, ctx);
  }

  /** One step of the walk at an included unit selects the unit itself first. */
  lemma IncludedSplit(forest: seq<Node>, prefix: Path, start: nat, ctx: DynContext)
    requires forest != [] && |prefix| < |ctx.levels| && Included(ctx.config, forest[0])
    ensures SelWalk(forest, prefix, start, ctx)
      == [Visit(prefix + [start], forest[0], |prefix|)]
         + SelWalk(forest[0].subcategories, prefix + [start], 0, ctx)
         + SelWalk(forest[1..], prefix, start + 1, ctx)
  {
    WalkStepSplit(forest, prefix, start, ctx);
    var me := Visit(prefix + [start], forest[0], |prefix|);
    assert Select([me], IncludedBy(ctx.config)) == [me];
  }

  lemma SkipEntriesStep(forest: seq<Node>, prefix: Path, start: nat, parent: Option<string>, order: nat, ctx: DynContext)
    requires forest != [] && |prefix| < |ctx.levels| && !Included(ctx.config, forest[0])
    requires var kids := DynFrom(forest[0].subcategories, prefix + [start], 0, parent, order, ctx);
      && EntriesMatch(SelWalk(forest[0].subcategories, prefix + [start], 0, ctx), kids, order, ctx)
      && EntriesMatch(SelWalk(forest[1..], prefix, start + 1, ctx),
                      DynFrom(forest[1..], prefix, start + 1, parent, order + |kids|, ctx), order + |kids|, ctx)
    ensures EntriesMatch(SelWalk(forest, prefix, start, ctx), DynFrom(forest, prefix, start, parent, order, ctx), order, ctx)
  {
    var p := prefix + [start];
    var kids := DynFrom(forest[0].subcategories, p, 0, parent, order, ctx);
    var rest := DynFrom(forest[1..], prefix, start + 1, parent, order + |kids|, ctx);
    SkipUnfold(forest, prefix, start, parent, order, ctx);
    SkipSplit(forest, prefix, start, ctx);
    EntriesConcat(SelWalk(forest[0].subcategories, p, 0, ctx), kids, SelWalk(forest[1..], prefix, start + 1, ctx), rest, order, ctx);
  }

  /** An included unit's entry, then its descendants' entries, then its later siblings' entries. */
  lemma EntriesJoin(v: Visit, me: DynamicNode, sKids: seq<Visit>, kids: seq<DynamicNode>,
                    sRest: seq<Visit>, rest: seq<DynamicNode>, order: nat, ctx: DynContext,
                    parent: Option<string>, s: seq<Visit>, r: seq<DynamicNode>)
    requires v.depth < |ctx.levels| && me == Entry(ctx, v.node, v.depth, parent, order)
    requires EntriesMatch(sKids, kids, order + 1, ctx)
    requires EntriesMatch(sRest, rest, order + 1 + |kids|, ctx)
    requires s == [v] + sKids + sRest && r == [me] + kids + rest
    ensures EntriesMatch(s, r, order, ctx)
  {
    assert me.parentId == parent;
    assert EntriesMatch([v], [me], order, ctx);
    EntriesConcat([v], [me], sKids, kids, order, ctx);
    var sHead, rHead := [v] + sKids, [me] + kids;
    assert |rHead| == 1 + |kids|;
    EntriesConcat(sHead, rHead, sRest, rest, order, ctx);
  }

  lemma IncludedEntriesStep(forest: seq<Node>, prefix: Path, start: nat, parent: Option<string>, order: nat, ctx: DynContext)
    requires forest != [] && |prefix| < |ctx.levels| && Included(ctx.config, forest[0])
    requires var me := Entry(ctx, forest[0], |prefix|, parent, order);
      var kids := DynFrom(forest[0].subcategories, prefix + [start], 0, Some(me.id), order + 1, ctx);
      && EntriesMatch(SelWalk(forest[0].subcategories, prefix + [start], 0, ctx), kids, order + 1, ctx)
      && EntriesMatch(SelWalk(forest[1..], prefix, start + 1, ctx),
                      DynFrom(forest[1..], prefix, start + 1, parent, order + 1 + |kids|, ctx), order + 1 + |kids|, ctx)
    ensures EntriesMatch(SelWalk(forest, prefix, start, ctx), DynFrom(forest, prefix, start, parent, order, ctx), order, ctx)
  {
    var p := prefix + [start];
    var v := Visit(p, forest[0], |prefix|);
    var me := Entry(ctx, forest[0], |prefix|, parent, order);
    var kids := DynFrom(forest[0].subcategories, p, 0, Some(me.id), order + 1, ctx);
    var rest := DynFrom(forest[1..], prefix, start + 1, parent, order + 1 + |kids|, ctx);
    var sKids, sRest := SelWalk(forest[0].subcategories, p, 0, ctx), SelWalk(forest[1..], prefix, start + 1, ctx);
    IncludedUnfoldNamed(forest, prefix, start, parent, order, ctx, me, kids, rest);
    assert SelWalk(forest, prefix, start, ctx) == [v] + sKids + sRest by {
      IncludedSplit(forest, prefix, start, ctx);
    }
    EntriesJoin(v, me, sKids, kids, sRest, rest, order, ctx, parent, SelWalk(forest, prefix, start, ctx), DynFrom(forest, prefix, start, parent, order, ctx));
  }

  lemma SkipParentsStep(forest: seq<Node>, prefix: Path, start: nat, parent: Option<string>, order: nat, ctx: DynContext)
    requires forest != [] && |prefix| < |ctx.levels| && !Included(ctx.config, forest[0])
    requires var kids := DynFrom(forest[0].subcategories, prefix + [start], 0, parent, order, ctx);
      var rest := DynFrom(forest[1..], prefix, start + 1, parent, order + |kids|, ctx);
      && |SelWalk(forest[0].subcategories, prefix + [start], 0, ctx)| == |kids|
      && |SelWalk(forest[1..], prefix, start + 1, ctx)| == |rest|
      && ParentsMatch(SelWalk(forest[0].subcategories, prefix + [start], 0, ctx), kids, parent)
      && ParentsMatch(SelWalk(forest[1..], prefix, start + 1, ctx), rest, parent)
    ensures |SelWalk(forest, prefix, start, ctx)| == |DynFrom(forest, prefix, start, parent, order, ctx)|
    ensures ParentsMatch(SelWalk(forest, prefix, start, ctx), DynFrom(forest, prefix, start, parent, order, ctx), parent)
  {
    var p := prefix + [start];
    var kids := DynFrom(forest[0].subcategories, p, 0, parent, order, ctx);
    var rest := DynFrom(forest[1..], prefix, start + 1, parent, order + |kids|, ctx);
    SkipUnfold(forest, prefix, start, parent, order, ctx);
    SkipSplit(forest, prefix, start, ctx);
    WalkStepPaths(forest, prefix, start, ctx);
    ParentsConcat(SelWalk(forest[0].subcategories, p, 0, ctx), kids, SelWalk(forest[1..], prefix, start + 1, ctx), rest, parent);
  }

  /** An included unit's entry, its descendants' entries below it, then its later siblings' entries. */
  lemma ParentsJoin(v: Visit, me: DynamicNode, sKids: seq<Visit>, kids: seq<DynamicNode>,
                    sRest: seq<Visit>, rest: seq<DynamicNode>, parent: Option<string>,
                    s: seq<Visit>, r: seq<DynamicNode>)
    requires |sKids| == |kids| && |sRest| == |rest| && me.parentId == parent
    requires ParentsMatch(sKids, kids, Some(me.id)) && ParentsMatch(sRest, rest, parent)
    requires AllUnder(sKids, v.path) && NoneAbove(sKids, sRest) && NoneAbove([v], sRest)
    requires s == [v] + sKids + sRest && r == [me] + kids + rest
    ensures |s| == |r|
    ensures ParentsMatch(s, r, parent)
  {
    ParentsUnder(v, me, sKids, kids, parent);
    var sHead, rHead := [v] + sKids, [me] + kids;
    forall i, k | 0 <= i < |sHead| && 0 <= k < |sRest|
      ensures !IsProperPrefix(sHead[i].path, sRest[k].path)
    {
      if i > 0 {
        assert sHead[i] == sKids[i - 1];
      } else {
        assert sHead[i] == [v][0];
      }
    }
    ParentsConcat(sHead, rHead, sRest, rest, parent);
  }

  lemma IncludedParentsStep(forest: seq<Node>, prefix: Path, start: nat, parent: Option<string>, order: nat, ctx: DynContext,
                            me: DynamicNode, kids: seq<DynamicNode>)
    requires forest != [] && |prefix| < |ctx.levels| && Included(ctx.config, forest[0])
    requires me == Entry(ctx, forest[0], |prefix|, parent, order)
    requires kids == DynFrom(forest[0].subcategories, prefix + [start], 0, Some(me.id), order + 1, ctx)
    requires |SelWalk(forest[0].subcategories, prefix + [start], 0, ctx)| == |kids|
    requires ParentsMatch(SelWalk(forest[0].subcategories, prefix + [start], 0, ctx), kids, Some(me.id))
    requires var rest := DynFrom(forest[1..], prefix, start + 1, parent, order + 1 + |kids|, ctx);
      |SelWalk(forest[1..], prefix, start + 1, ctx)| == |rest|
      && ParentsMatch(SelWalk(forest[1..], prefix, start + 1, ctx), rest, parent)
    ensures |SelWalk(forest, prefix, start, ctx)| == |DynFrom(forest, prefix, start, parent, order, ctx)|
    ensures ParentsMatch(SelWalk(forest, prefix, start, ctx), DynFrom(forest, prefix, start, parent, order, ctx), parent)
  {
    var p := prefix + [start];
    var v := Visit(p, forest[0], |prefix|);
    var sKids, sRest := SelWalk(forest[0].subcategories, p, 0, ctx), SelWalk(forest[1..], prefix, start + 1, ctx);
    var rest := DynFrom(forest[1..], prefix, start + 1, parent, order + 1 + |kids|, ctx);
    assert SelWalk(forest, prefix, start, ctx) == [v] + sKids + sRest by {
      IncludedSplit(forest, prefix, start, ctx);
    }
    IncludedUnfoldNamed(forest, prefix, start, parent, order, ctx, me, kids, rest);
    assert AllUnder(sKids, v.path) && NoneAbove(sKids, sRest) && NoneAbove([v], sRest) by {
      WalkStepPaths(forest, prefix, start, ctx);
    }
    ParentsJoin(v, me, sKids, kids, sRest, rest, parent, SelWalk(forest, prefix, start, ctx), DynFrom(forest, prefix, start, parent, order, ctx));
  }

  lemma {:induction false} SkipEntries(forest: seq<Node>, prefix: Path, start: nat, parent: Option<string>, order: nat, ctx: DynContext)
    requires forest != [] && |prefix| < |ctx.levels| && !Included(ctx.config, forest[0])
    ensures EntriesMatch(SelWalk(forest, prefix, start, ctx), DynFrom(forest, prefix, start, parent, order, ctx), order, ctx)
    decreases forest, 0
  {
    var p := prefix + [start];
    var kids := DynFrom(forest[0].subcategories, p, 0, parent, order, ctx);
    DynEntriesFollowWalk(forest[0].subcategories, p, 0, parent, order, ctx);
    DynEntriesFollowWalk(forest[1..], prefix, start + 1, parent, order + |kids|, ctx);
    SkipEntriesStep(forest, prefix, start, parent, order, ctx);
  }

  lemma {:induction false} IncludedEntries(forest: seq<Node>, prefix: Path, start: nat, parent: Option<string>, order: nat, ctx: DynContext)
    requires forest != [] && |prefix| < |ctx.levels| && Included(ctx.config, forest[0])
    ensures EntriesMatch(SelWalk(forest, prefix, start, ctx), DynFrom(forest, prefix, start, parent, order, ctx), order, ctx)
    decreases forest, 0
  {
    var p := prefix + [start];
    var me := Entry(ctx, forest[0], |prefix|, parent, order);
    var kids := DynFrom(forest[0].subcategories, p, 0, Some(me.id), order + 1, ctx);
    DynEntriesFollowWalk(forest[0].subcategories, p, 0, Some(me.id), order + 1, ctx);
    DynEntriesFollowWalk(forest[1..], prefix, start + 1, parent, order + 1 + |kids|, ctx);
    IncludedEntriesStep(forest, prefix, start, parent, order, ctx);
  }

  lemma {:induction false} SkipParents(forest: seq<Node>, prefix: Path, start: nat, parent: Option<string>, order: nat, ctx: DynContext)
    requires forest != [] && |prefix| < |ctx.levels| && !Included(ctx.config, forest[0])
    ensures |SelWalk(forest, prefix, start, ctx)| == |DynFrom(forest, prefix, start, parent, order, ctx)|
    ensures ParentsMatch(SelWalk(forest, prefix, start, ctx), DynFrom(forest, prefix, start, parent, order, ctx), parent)
    decreases forest, 0
  {
    var p := prefix + [start];
    var kids := DynFrom(forest[0].subcategories, p, 0, parent, order, ctx);
    DynParentsFollowWalk(forest[0].subcategories, p, 0, parent, order, ctx);
    DynParentsFollowWalk(forest[1..], prefix, start + 1, parent, order + |kids|, ctx);
    SkipParentsStep(forest, prefix, start, parent, order, ctx);
  }

  lemma {:induction false} IncludedParents(forest: seq<Node>, prefix: Path, start: nat, parent: Option<string>, order: nat, ctx: DynContext)
    requires forest != [] && |prefix| < |ctx.levels| && Included(ctx.config, forest[0])
    ensures |SelWalk(forest, prefix, start, ctx)| == |DynFrom(forest, prefix, start, parent, order, ctx)|
    ensures ParentsMatch(SelWalk(forest, prefix, start, ctx), DynFrom(forest, prefix, start, parent, order, ctx), parent)
    decreases forest, 0
  {
    var p := prefix + [start];
    var me := Entry(ctx, forest[0], |prefix|, parent, order);
    var kids := DynFrom(forest[0].subcategories, p, 0, Some(me.id), order + 1, ctx);
    DynParentsFollowWalk(forest[0].subcategories, p, 0, Some(me.id), order + 1, ctx);
    DynParentsFollowWalk(forest[1..], prefix, start + 1, parent, order + 1 + |kids|, ctx);
    IncludedParentsStep(forest, prefix, start, parent, order, ctx, me, kids);
  }

  /**
   * The dynamic list follows the walk: its entries are, in order, the entries
   * of the included units of the depth-bounded preorder walk (skipped units
   * leave no entry but their children are still walked), numbered from `order`.
   */
  lemma {:induction false} DynEntriesFollowWalk(forest: seq<Node>, prefix: Path, start: nat, parent: Option<string>, order: nat, ctx: DynContext)
    ensures EntriesMatch(SelWalk(forest, prefix, start, ctx), DynFrom(forest, prefix, start, parent, order, ctx), order, ctx)
    decreases forest, 1
  {
    if forest != [] && |prefix| < |ctx.levels| {
      if !Included(ctx.config, forest[0]) {
        SkipEntries(forest, prefix, start, parent, order, ctx);
      } else {
        IncludedEntries(forest, prefix, start, parent, order, ctx);
      }
    } else {
      assert DynFrom(forest, prefix, start, parent, order, ctx) == [];
      assert WalkFrom(forest, prefix, start, |ctx.levels|) == [];
    }
  }

  /** Each entry's parent is the entry of its nearest included ancestor, or `parent` when it has none. */
  lemma {:induction false} DynParentsFollowWalk(forest: seq<Node>, prefix: Path, start: nat, parent: Option<string>, order: nat, ctx: DynContext)
    ensures |SelWalk(forest, prefix, start, ctx)| == |DynFrom(forest, prefix, start, parent, order, ctx)|
    ensures ParentsMatch(SelWalk(forest, prefix, start, ctx), DynFrom(forest, prefix, start, parent, order, ctx), parent)
    decreases forest, 1
  {
    if forest != [] && |prefix| < |ctx.levels| {
      if !Included(ctx.config, forest[0]) {
        SkipParents(forest, prefix, start, parent, order, ctx);
      } else {
        IncludedParents(forest, prefix, start, parent, order, ctx);
      }
    } else {
      assert DynFrom(forest, prefix, start, parent, order, ctx) == [];
      assert WalkFrom(forest, prefix, start, |ctx.levels|) == [];
    }
  }

  /** The dynamic list of a whole flow: `buildDynamicNodes(flow.data, null, 0)`. */
  function DynamicList(data: seq<Node>, ctx: DynContext): seq<DynamicNode>
  {
    DynFrom(data, [], 0, None, 0, ctx)
  }

  /**
   * Entry `k` of the list is the entry of the `k`-th included unit of the
   * walk, and its parent is the entry of that unit's nearest included
   * ancestor, or none for a unit without one.
   */
  lemma DynamicListFollowsWalk(data: seq<Node>, ctx: DynContext)
    ensures EntriesMatch(SelWalk(data, [], 0, ctx), DynamicList(data, ctx), 0, ctx)
    ensures ParentsMatch(SelWalk(data, [], 0, ctx), DynamicList(data, ctx), None)
  {
    DynEntriesFollowWalk(data, [], 0, None, 0, ctx);
    DynParentsFollowWalk(data, [], 0, None, 0, ctx);
  }

  /** The included units the walk selects are exactly the included units above the depth bound. */
  lemma SelWalkExact(data: seq<Node>, ctx: DynContext)
    ensures forall v :: v in SelWalk(data, [], 0, ctx) ==>
      GetByPath(data, v.path) == Some(v.node) && v.depth == |v.path| - 1 < |ctx.levels| && Included(ctx.config, v.node)
    ensures forall path :: GetByPath(data, path).Some? && |path| <= |ctx.levels| && Included(ctx.config, GetByPath(data, path).value) ==>
      exists v :: v in SelWalk(data, [], 0, ctx) && v.path == path
  {
    var w := Walk(data, |ctx.levels|);
    WalkExact(data, |ctx.levels|);
    forall path | GetByPath(data, path).Some? && |path| <= |ctx.levels| && Included(ctx.config, GetByPath(data, path).value)
      ensures exists v :: v in SelWalk(data, [], 0, ctx) && v.path == path
    {
      var v :| v in w && v.path == path;
      assert IncludedBy(ctx.config)(v.node);
    }
  }

  /** Some unit before `k` is an ancestor of unit `k`, so a nearest one exists. */
  lemma {:induction false} NearestExists(s: seq<Visit>, k: nat, i: nat) returns (j: nat)
    requires i < k < |s| && IsProperPrefix(s[i].path, s[k].path)
    ensures i <= j < k && NearestAncestor(s, j, k)
    decreases k - i
  {
    if m :| i < m < k && IsProperPrefix(s[m].path, s[k].path) {
      j := NearestExists(s, k, m);
    } else {
      j := i;
    }
  }

  /** Parents point backwards: each parent id is `parent` or the id of an earlier entry. */
  lemma ParentsPointBack(s: seq<Visit>, r: seq<DynamicNode>, parent: Option<string>)
    requires |s| == |r| && ParentsMatch(s, r, parent)
    ensures forall k :: 0 <= k < |r| ==> r[k].parentId == parent || exists j :: 0 <= j < k && r[k].parentId == Some(r[j].id)
  {
    forall k | 0 <= k < |r|
      ensures r[k].parentId == parent || exists j :: 0 <= j < k && r[k].parentId == Some(r[j].id)
    {
      if !NoAncestorBefore(s, k) {
        var i :| 0 <= i < k && IsProperPrefix(s[i].path, s[k].path);
        var j := NearestExists(s, k, i);
      }
    }
  }

  /** Entries matching visits are numbered from `order` and stamped accordingly. */
  lemma EntriesStamped(s: seq<Visit>, r: seq<DynamicNode>, order: nat, ctx: DynContext)
    requires EntriesMatch(s, r, order, ctx)
    ensures forall k :: 0 <= k < |r| ==> r[k].order == order + k && r[k].id == Mint("dyn-node", ctx.stamp + order + k)
  {
  }

  /** Ids minted from distinct stamps are distinct. */
  lemma StampedIdsDistinct(r: seq<DynamicNode>, stamp: nat)
    requires forall k :: 0 <= k < |r| ==> r[k].id == Mint("dyn-node", stamp + k)
    ensures forall j, k :: 0 <= j < k < |r| ==> r[j].id != r[k].id
  {
    forall j, k | 0 <= j < k < |r|
      ensures r[j].id != r[k].id
    {
      if r[j].id == r[k].id {
        MintInjective("dyn-node", stamp + j, stamp + k);
      }
    }
  }

  /** Entry `k` of the list has order `k`, and no two entries share an id. */
  lemma DynamicListIds(data: seq<Node>, ctx: DynContext)
    ensures var r := DynamicList(data, ctx);
      && (forall k :: 0 <= k < |r| ==> r[k].order == k)
      && (forall j, k :: 0 <= j < k < |r| ==> r[j].id != r[k].id)
  {
    var r := DynamicList(data, ctx);
    DynEntriesFollowWalk(data, [], 0, None, 0, ctx);
    EntriesStamped(SelWalk(data, [], 0, ctx), r, 0, ctx);
    StampedIdsDistinct(r, ctx.stamp);
  }

  /**
   * Each entry is a connection or a task, carries task data exactly when it
   * is a task, and links at most one card, taken from its unit's own cards.
   */
  lemma DynamicListEntries(data: seq<Node>, ctx: DynContext)
    ensures var r := DynamicList(data, ctx);
      && (forall k :: 0 <= k < |r| ==> r[k].nodeType != Skip && |r[k].linkedTaskIds| <= 1)
      && (forall k :: 0 <= k < |r| ==> (r[k].taskData.Some? <==> r[k].nodeType == Task))
      && (forall k, x :: 0 <= k < |r| && x in r[k].linkedTaskIds ==> exists id :: id in ctx.cardIdMap && x in ctx.cardIdMap[id])
  {
    var s, r := SelWalk(data, [], 0, ctx), DynamicList(data, ctx);
    DynEntriesFollowWalk(data, [], 0, None, 0, ctx);
    forall k | 0 <= k < |r|
      ensures r[k].nodeType != Skip && |r[k].linkedTaskIds| <= 1
      ensures forall x :: x in r[k].linkedTaskIds ==> exists id :: id in ctx.cardIdMap && x in ctx.cardIdMap[id]
    {
      assert r[k] == Entry(ctx, s[k].node, s[k].depth, r[k].parentId, k);
      assert s[k] in s;
      assert s[k] in Select(WalkFrom(data, [], 0, |ctx.levels|), IncludedBy(ctx.config));
      assert IncludedBy(ctx.config)(s[k].node);
      LinkedCardsChoice(ctx.cardIdMap, s[k].node.id);
    }
  }

  /** Each entry's parent is none (a unit without an included ancestor) or an earlier entry. */
  lemma DynamicListParents(data: seq<Node>, ctx: DynContext)
    ensures var r := DynamicList(data, ctx);
      forall k :: 0 <= k < |r| ==> r[k].parentId == None || exists j :: 0 <= j < k && r[k].parentId == Some(r[j].id)
  {
    DynParentsFollowWalk(data, [], 0, None, 0, ctx);
    ParentsPointBack(SelWalk(data, [], 0, ctx), DynamicList(data, ctx), None);
  }

  /**
   * What every entry of the list carries: a distinct id, a connection or task
   * type, task data exactly for tasks, at most one linked card taken from the
   * unit's own cards, and a parent that is an earlier entry or none.
   */
  lemma DynamicListWellFormed(data: seq<Node>, ctx: DynContext)
    ensures var r := DynamicList(data, ctx);
      && (forall j, k :: 0 <= j < k < |r| ==> r[j].id != r[k].id)
      && (forall k :: 0 <= k < |r| ==> r[k].order == k && r[k].nodeType != Skip)
      && (forall k :: 0 <= k < |r| ==> (r[k].taskData.Some? <==> r[k].nodeType == Task))
      && (forall k :: 0 <= k < |r| ==> |r[k].linkedTaskIds| <= 1)
      && (forall k, x :: 0 <= k < |r| && x in r[k].linkedTaskIds ==> exists id :: id in ctx.cardIdMap && x in ctx.cardIdMap[id])
      && (forall k :: 0 <= k < |r| ==> r[k].parentId == None || exists j :: 0 <= j < k && r[k].parentId == Some(r[j].id))
  {
    DynamicListIds(data, ctx);
    DynamicListEntries(data, ctx);
    DynamicListParents(data, ctx);
  }

  /** The entries of a run of one skipped unit are those of its children. */
  lemma SkipSingle(node: Node, prefix: Path, start: nat, parent: Option<string>, order: nat, ctx: DynContext)
    requires |prefix| < |ctx.levels| && !Included(ctx.config, node)
    ensures DynFrom([node], prefix, start, parent, order, ctx)
      == DynFrom(node.subcategories, prefix + [start], 0, parent, order, ctx)
  {
    var one := [node];
    assert one[0] == node && one[1..] == [];
    SkipUnfold(one, prefix, start, parent, order, ctx);
    var kids := DynFrom(node.subcategories, prefix + [start], 0, parent, order, ctx);
    assert kids + [] == kids;
  }

  /** The entries of a run of one included unit are its own entry, then those of its children. */
  lemma IncludedSingle(node: Node, prefix: Path, start: nat, parent: Option<string>, order: nat, next: nat, ctx: DynContext)
    requires |prefix| < |ctx.levels| && Included(ctx.config, node) && next == order + 1
    ensures var me := Entry(ctx, node, |prefix|, parent, order);
      DynFrom([node], prefix, start, parent, order, ctx)
      == [me] + DynFrom(node.subcategories, prefix + [start], 0, Some(me.id), next, ctx)
  {
    var one := [node];
    assert one[0] == node && one[1..] == [];
    IncludedUnfold(one, prefix, start, parent, order, ctx);
    var me := Entry(ctx, node, |prefix|, parent, order);
    var kids := DynFrom(node.subcategories, prefix + [start], 0, Some(me.id), order + 1, ctx);
    assert [me] + kids + [] == [me] + kids;
  }

  /** The entries of a sibling run are those of its first unit's subtree, then those of the others. */
  lemma DynFromHead(forest: seq<Node>, prefix: Path, start: nat, parent: Option<string>, order: nat, next: nat, ctx: DynContext)
    requires forest != [] && |prefix| < |ctx.levels|
    requires next == order + |DynFrom([forest[0]], prefix, start, parent, order, ctx)|
    ensures DynFrom(forest, prefix, start, parent, order, ctx)
      == DynFrom([forest[0]], prefix, start, parent, order, ctx) + DynFrom(forest[1..], prefix, start + 1, parent, next, ctx)
  {
    if !Included(ctx.config, forest[0]) {
      DynFromHeadSkipped(forest, prefix, start, parent, order, next, ctx);
    } else {
      DynFromHeadIncluded(forest, prefix, start, parent, order, next, ctx);
    }
  }

  lemma DynFromHeadSkipped(forest: seq<Node>, prefix: Path, start: nat, parent: Option<string>, order: nat, next: nat, ctx: DynContext)
    requires forest != [] && |prefix| < |ctx.levels| && !Included(ctx.config, forest[0])
    requires next == order + |DynFrom([forest[0]], prefix, start, parent, order, ctx)|
    ensures DynFrom(forest, prefix, start, parent, order, ctx)
      == DynFrom([forest[0]], prefix, start, parent, order, ctx) + DynFrom(forest[1..], prefix, start + 1, parent, next, ctx)
  {
    var p := prefix + [start];
    SkipSingle(forest[0], prefix, start, parent, order, ctx);
    var kids := DynFrom(forest[0].subcategories, p, 0, parent, order, ctx);
    assert next == order + |kids|;
    SkipUnfold(forest, prefix, start, parent, order, ctx);
  }

  lemma DynFromHeadIncluded(forest: seq<Node>, prefix: Path, start: nat, parent: Option<string>, order: nat, next: nat, ctx: DynContext)
    requires forest != [] && |prefix| < |ctx.levels| && Included(ctx.config, forest[0])
    requires next == order + |DynFrom([forest[0]], prefix, start, parent, order, ctx)|
    ensures DynFrom(forest, prefix, start, parent, order, ctx)
      == DynFrom([forest[0]], prefix, start, parent, order, ctx) + DynFrom(forest[1..], prefix, start + 1, parent, next, ctx)
  {
    var p := prefix + [start];
    IncludedSingle(forest[0], prefix, start, parent, order, order + 1, ctx);
    var me := Entry(ctx, forest[0], |prefix|, parent, order);
    var kids := DynFrom(forest[0].subcategories, p, 0, Some(me.id), order + 1, ctx);
    assert next == order + 1 + |kids|;
    IncludedUnfold(forest, prefix, start, parent, order, ctx);
  }

  /** One turn of the sibling loop: appending the first unit's subtree moves the loop on by one. */
  lemma DynFromStep(forest: seq<Node>, i: nat, prefix: Path, parent: Option<string>, before: seq<DynamicNode>,
                    after: seq<DynamicNode>, ctx: DynContext)
    requires i < |forest| && |prefix| < |ctx.levels|
    requires after == before + DynFrom([forest[i]], prefix, i, parent, |before|, ctx)
    ensures after + DynFrom(forest[i + 1..], prefix, i + 1, parent, |after|, ctx)
      == before + DynFrom(forest[i..], prefix, i, parent, |before|, ctx)
  {
    var rest := forest[i..];
    assert rest[0] == forest[i] && rest[1..] == forest[i + 1..];
    var head := DynFrom([forest[i]], prefix, i, parent, |before|, ctx);
    var next := |after|;
    assert next == |before| + |head|;
    DynFromHead(rest, prefix, i, parent, |before|, next, ctx);
    var tail := DynFrom(forest[i + 1..], prefix, i + 1, parent, next, ctx);
    AppendAssoc(before, head, after, tail);
  }

  /**
   * `buildDynamicNodes(forest, parent, |prefix|)`: pushes the entries of
   * `forest` (the children under `prefix`) onto `list`, minting one id per
   * entry from `clock`.
   */
  method BuildDynamicNodes(forest: seq<Node>, prefix: Path, parent: Option<string>, ctx: DynContext,
                           clock: IdClock, list: seq<DynamicNode>) returns (out: seq<DynamicNode>)
    requires clock.stamp == ctx.stamp + |list|
    modifies clock
    ensures out == list + DynFrom(forest, prefix, 0, parent, |list|, ctx)
    ensures clock.stamp == ctx.stamp + |out|
    decreases forest
  {
    out := list;
    if |prefix| >= |ctx.levels| {
      return;
    }
    var i := 0;
    while i < |forest|
      invariant 0 <= i <= |forest|
      invariant clock.stamp == ctx.stamp + |out|
      invariant out + DynFrom(forest[i..], prefix, i, parent, |out|, ctx) == list + DynFrom(forest, prefix, 0, parent, |list|, ctx)
    {
      ghost var before := out;
      out := VisitNode(forest[i], i, prefix, parent, ctx, clock, out);
      DynFromStep(forest, i, prefix, parent, before, out, ctx);
      i := i + 1;
    }
    assert forest[i..] == [];
  }

  /** The `forEach` callback of `buildDynamicNodes`: the entries of one unit's subtree. */
  method VisitNode(node: Node, index: nat, prefix: Path, parent: Option<string>, ctx: DynContext,
                   clock: IdClock, list: seq<DynamicNode>) returns (out: seq<DynamicNode>)
    requires |prefix| < |ctx.levels| && clock.stamp == ctx.stamp + |list|
    modifies clock
    ensures out == list + DynFrom([node], prefix, index, parent, |list|, ctx)
    ensures clock.stamp == ctx.stamp + |out|
    decreases node
  {
    var nodeType := TypeOf(ctx.config, node.id);
    if nodeType == Skip {
      SkipSingle(node, prefix, index, parent, |list|, ctx);
      out := BuildDynamicNodes(node.subcategories, prefix + [index], parent, ctx, clock, list);
    } else {
      var id := clock.GenerateId("dyn-node");
      var dynamicNode := DynamicNode(id, CardTitle(node, ctx.levels[|prefix|]), nodeType, parent, |prefix|, |list|,
                                     LinkedCards(ctx.cardIdMap, node.id),
                                     if nodeType == Task then Some(TaskData(CardText(node), node.completed)) else None);
      assert dynamicNode == Entry(ctx, node, |prefix|, parent, |list|);
      var pushed := list + [dynamicNode];
      IncludedSingle(node, prefix, index, parent, |list|, |pushed|, ctx);
      out := BuildDynamicNodes(node.subcategories, prefix + [index], Some(id), ctx, clock, pushed);
      AppendAssoc(list, [dynamicNode], pushed, out[|pushed|..]);
    }
  }

  /** `buildDynamicNodes(flow.data || [], null, 0)` on an empty list. */
  method BuildDynamicList(data: seq<Node>, ctx: DynContext, clock: IdClock) returns (nodes: seq<DynamicNode>)
    requires clock.stamp == ctx.stamp
    modifies clock
    ensures nodes == DynamicList(data, ctx)
    ensures clock.stamp == ctx.stamp + |nodes|
  {
    var empty: seq<DynamicNode> := [];
    nodes := BuildDynamicNodes(data, [], None, ctx, clock, empty);
    AppendEmpty(empty, DynFrom(data, [], 0, None, |empty|, ctx), nodes);
  }
}
