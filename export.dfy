/**
 * `executeWorkflowExport` (export-to-board-module.js) as a whole: collect the
 * units in scope, lay out the columns, create the cards and the label
 * palette, then build the dynamic list. `ExportBoard` states the board the
 * export builds; the methods build it step by step with an id clock and are
 * proved to build exactly that board.
 */
module Export {
  import opened Wrappers
  import opened Ids
  import opened Workflow
  import opened Board
  import opened ExportConfig
  import opened ExportCards
  import opened ExportDynamic
  import opened Seqs

  function ScopeBy(config: Config): Node -> bool
  {
    node => InScope(node, config)
  }

  /** What `collectNodes(forest, ...)` pushes for the siblings `forest` under `prefix` from index `start` on. */
  function CollectFrom(forest: seq<Node>, prefix: Path, start: nat, levels: seq<Level>, config: Config): seq<Visit>
  {
    Select(WalkFrom(forest, prefix, start, |levels|), ScopeBy(config))
  }

  /** `nodesToExport`: the units in scope, in the preorder of the walk, down to the template's last level. */
  function NodesToExport(data: seq<Node>, levels: seq<Level>, config: Config): seq<Visit>
  {
    CollectFrom(data, [], 0, levels, config)
  }

  /**
   * The units to export are exactly the units in scope above the depth bound:
   * each entry addresses its unit at its depth, and every such unit has an entry.
   */
  lemma NodesToExportExact(data: seq<Node>, levels: seq<Level>, config: Config)
    ensures forall v :: v in NodesToExport(data, levels, config) ==>
      GetByPath(data, v.path) == Some(v.node) && v.depth == |v.path| - 1 < |levels| && InScope(v.node, config)
    ensures forall path :: GetByPath(data, path).Some? && |path| <= |levels| && InScope(GetByPath(data, path).value, config) ==>
      exists v :: v in NodesToExport(data, levels, config) && v.path == path
    ensures DepthsBelow(NodesToExport(data, levels, config), |levels|)
  {
    NodesToExportDepths(data, levels, config);
    var w := Walk(data, |levels|);
    var nodes := NodesToExport(data, levels, config);
    WalkExact(data, |levels|);
    forall path | GetByPath(data, path).Some? && |path| <= |levels| && InScope(GetByPath(data, path).value, config)
      ensures exists v :: v in nodes && v.path == path
    {
      var v :| v in w && v.path == path;
      assert ScopeBy(config)(v.node);
    }
  }

  /** Every unit to export lies above the template's last level. */
  lemma NodesToExportDepths(data: seq<Node>, levels: seq<Level>, config: Config)
    ensures DepthsBelow(NodesToExport(data, levels, config), |levels|)
  {
    var nodes := NodesToExport(data, levels, config);
    WalkFromInSegment(data, [], 0, |levels|);
    forall k | 0 <= k < |nodes|
      ensures nodes[k].depth < |levels|
    {
      assert nodes[k] in nodes;
    }
  }

  /** The export has something to do exactly when some unit above the depth bound is in scope. */
  lemma NothingToExportIff(data: seq<Node>, levels: seq<Level>, config: Config)
    ensures NodesToExport(data, levels, config) == [] <==>
      forall path :: GetByPath(data, path).Some? && |path| <= |levels| ==> !InScope(GetByPath(data, path).value, config)
  {
    var nodes := NodesToExport(data, levels, config);
    NodesToExportExact(data, levels, config);
    if nodes != [] {
      var v := nodes[0];
      assert v in nodes;
      assert GetByPath(data, v.path).Some? && |v.path| <= |levels| && InScope(GetByPath(data, v.path).value, config);
    }
  }

  /** A walk of one unit visits it, then its subtree. */
  lemma WalkSingle(node: Node, prefix: Path, start: nat, maxDepth: nat)
    requires |prefix| < maxDepth
    ensures WalkFrom([node], prefix, start, maxDepth)
      == [Visit(prefix + [start], node, |prefix|)] + WalkFrom(node.subcategories, prefix + [start], 0, maxDepth)
  {
    var one := [node];
    assert one[0] == node && one[1..] == [];
    var kids := WalkFrom(node.subcategories, prefix + [start], 0, maxDepth);
    assert [Visit(prefix + [start], node, |prefix|)] + kids + [] == [Visit(prefix + [start], node, |prefix|)] + kids;
  }

  /** A walk of the siblings from index `i` on visits the `i`-th unit's subtree, then the rest. */
  lemma WalkAt(forest: seq<Node>, i: nat, prefix: Path, maxDepth: nat)
    requires i < |forest| && |prefix| < maxDepth
    ensures WalkFrom(forest[i..], prefix, i, maxDepth)
      == WalkFrom([forest[i]], prefix, i, maxDepth) + WalkFrom(forest[i + 1..], prefix, i + 1, maxDepth)
  {
    var rest := forest[i..];
    assert rest[0] == forest[i] && rest[1..] == forest[i + 1..];
    WalkSingle(forest[i], prefix, i, maxDepth);
  }

  /** What `collectNodes` pushes for one unit: the unit if it is in scope, then what it pushes for the children. */
  lemma CollectSingle(node: Node, index: nat, prefix: Path, levels: seq<Level>, config: Config)
    requires |prefix| < |levels|
    ensures CollectFrom([node], prefix, index, levels, config)
      == (if InScope(node, config) then [Visit(prefix + [index], node, |prefix|)] else [])
         + CollectFrom(node.subcategories, prefix + [index], 0, levels, config)
  {
    var me := Visit(prefix + [index], node, |prefix|);
    WalkSingle(node, prefix, index, |levels|);
    SelectAppend([me], WalkFrom(node.subcategories, prefix + [index], 0, |levels|), ScopeBy(config));
    assert Select([me], ScopeBy(config)) == if InScope(node, config) then [me] else [];
  }

  /** `collectNodes(forest, ..., |prefix|)`: pushes the in-scope units of `forest`'s subtrees onto `list`. */
  method CollectNodes(forest: seq<Node>, prefix: Path, levels: seq<Level>, config: Config, list: seq<Visit>)
    returns (out: seq<Visit>)
    ensures out == list + CollectFrom(forest, prefix, 0, levels, config)
    decreases forest
  {
    out := list;
    if |prefix| >= |levels| {
      return;
    }
    var i := 0;
    while i < |forest|
      invariant 0 <= i <= |forest|
      invariant out + CollectFrom(forest[i..], prefix, i, levels, config) == list + CollectFrom(forest, prefix, 0, levels, config)
    {
      ghost var before := out;
      out := CollectNode(forest[i], i, prefix, levels, config, out);
      WalkAt(forest, i, prefix, |levels|);
      SelectAppend(WalkFrom([forest[i]], prefix, i, |levels|), WalkFrom(forest[i + 1..], prefix, i + 1, |levels|), ScopeBy(config));
      AppendAssoc(before, CollectFrom([forest[i]], prefix, i, levels, config), out, CollectFrom(forest[i + 1..], prefix, i + 1, levels, config));
      i := i + 1;
    }
    assert forest[i..] == [];
  }

  /** The `forEach` callback of `collectNodes`: the unit if it is in scope, then its in-scope descendants. */
  method CollectNode(node: Node, index: nat, prefix: Path, levels: seq<Level>, config: Config, list: seq<Visit>)
    returns (out: seq<Visit>)
    requires |prefix| < |levels|
    ensures out == list + CollectFrom([node], prefix, index, levels, config)
    decreases node
  {
    var shouldInclude := false;
    if config.scope == Full {
      shouldInclude := true;
    } else if config.scope == Partial {
      shouldInclude := node.id in config.selectedNodes;
    } else {
      shouldInclude := NodeHasTag(node, config.tagFilter);
    }
    var me := Visit(prefix + [index], node, |prefix|);
    ghost var kids := CollectFrom(node.subcategories, prefix + [index], 0, levels, config);
    CollectSingle(node, index, prefix, levels, config);
    if shouldInclude {
      out := CollectNodes(node.subcategories, prefix + [index], levels, config, list + [me]);
      AppendAssoc(list, [me], list + [me], kids);
    } else {
      out := CollectNodes(node.subcategories, prefix + [index], levels, config, list);
    }
  }

  datatype ExportError = NothingToExport

  function BoardDescription(config: Config, flowName: string): string
  {
    config.boardDescription + "\n\nExported from workflow: " + flowName
  }

  /** The column `columns.find(c => c.name === 'To Do')?.id` picks, or "" when there is none. */
  function DefaultColumnId(columns: seq<Column>): string
  {
    match FindColumn(columns, "To Do")
    case Some(i) => columns[i].id
    case None => ""
  }

  /** The card context of a board: the reference column is the first column when references are exported. */
  function BoardCardContext(config: Config, levels: seq<Level>, columns: seq<Column>, boardId: string): CardContext
  {
    CardContext(config, levels, columns,
                if config.exportReference && columns != [] then columns[0].id else "",
                DefaultColumnId(columns), boardId)
  }

  /** The context the export's cards are created in satisfies what the card loop needs. */
  lemma BoardCardContextOk(config: Config, levels: seq<Level>, stamp: nat, boardId: string)
    ensures ContextOk(BoardCardContext(config, levels, ColumnLayout(config.exportReference, stamp), boardId))
  {
    var columns := ColumnLayout(config.exportReference, stamp);
    ColumnFound(config.exportReference, stamp, 0);
    assert columns[0] in columns;
    var o := if config.exportReference then 1 else 0;
    assert columns[o] in columns;
  }

  /** The board once its columns and cards exist: the dynamic list is built last, from the clock where the cards left it. */
  function BoardOf(flow: Flow, levels: seq<Level>, config: Config, boardId: string, columns: seq<Column>, st: CardState): Board
  {
    var dynamicNodes := if config.exportDynamicList then DynamicList(flow.data, DynContext(config, levels, st.cardIdMap, st.stamp)) else [];
    Board(boardId, config.boardName, BoardDescription(config, flow.name), flow.id, columns, st.cards, st.labels,
          config.exportDynamicList, dynamicNodes)
  }

  /**
   * The board `executeWorkflowExport` builds from a clock reading `stamp`, or
   * `NothingToExport` when no unit is in scope. Ids are minted in creation
   * order: the board, the columns, the cards with their new labels, then the
   * dynamic list's entries.
   */
  function ExportBoard(flow: Flow, levels: seq<Level>, config: Config, stamp: nat): Result<Board, ExportError>
  {
    var nodes := NodesToExport(flow.data, levels, config);
    if nodes == [] then Err(NothingToExport)
    else
      NodesToExportDepths(flow.data, levels, config);
      Ok(BoardFrom(flow, levels, config, Mint("board", stamp), ColumnLayout(config.exportReference, stamp + 1),
                   stamp + 1 + |LayoutNames(config.exportReference)|, nodes))
  }

  /** The board with the given id and columns whose cards are minted from `cardStamp` on, one unit of `nodes` at a time. */
  function BoardFrom(flow: Flow, levels: seq<Level>, config: Config, boardId: string, columns: seq<Column>,
                     cardStamp: nat, nodes: seq<Visit>): Board
    requires DepthsBelow(nodes, |levels|) && columns != []
  {
    BoardOf(flow, levels, config, boardId, columns,
            ExportUnits(CardState([], [], map[], cardStamp), BoardCardContext(config, levels, columns, boardId), nodes))
  }

  /** `ExportBoard` once the board id, the columns and the clock reading of the first card are named. */
  lemma ExportBoardOk(flow: Flow, levels: seq<Level>, config: Config, stamp: nat, boardId: string,
                      columns: seq<Column>, cardStamp: nat)
    requires NodesToExport(flow.data, levels, config) != []
    requires boardId == Mint("board", stamp) && columns == ColumnLayout(config.exportReference, stamp + 1)
    requires cardStamp == stamp + 1 + |LayoutNames(config.exportReference)|
    ensures DepthsBelow(NodesToExport(flow.data, levels, config), |levels|) && columns != []
    ensures ExportBoard(flow, levels, config, stamp)
      == Ok(BoardFrom(flow, levels, config, boardId, columns, cardStamp, NodesToExport(flow.data, levels, config)))
  {
    NodesToExportDepths(flow.data, levels, config);
    assert |columns| == |LayoutNames(config.exportReference)| >= 4;
  }

  /** The board assembled from the parts the export built. */
  lemma BoardAssembled(flow: Flow, levels: seq<Level>, config: Config, boardId: string, columns: seq<Column>,
                       ctx: CardContext, cardStamp: nat, nodes: seq<Visit>, cards: seq<Card>, labels: seq<Label>,
                       cardIdMap: map<string, seq<string>>, cardsEnd: nat, dynamicNodes: seq<DynamicNode>)
    requires DepthsBelow(nodes, |levels|) && columns != []
    requires ctx == BoardCardContext(config, levels, columns, boardId)
    requires CardState(cards, labels, cardIdMap, cardsEnd) == ExportUnits(CardState([], [], map[], cardStamp), ctx, nodes)
    requires dynamicNodes == if config.exportDynamicList then DynamicList(flow.data, DynContext(config, levels, cardIdMap, cardsEnd)) else []
    ensures Board(boardId, config.boardName, BoardDescription(config, flow.name), flow.id, columns, cards, labels,
                  config.exportDynamicList, dynamicNodes)
      == BoardFrom(flow, levels, config, boardId, columns, cardStamp, nodes)
  {
  }

  /** The export fails exactly when no unit above the template's last level is in scope. */
  lemma ExportBoardFailsIff(flow: Flow, levels: seq<Level>, config: Config, stamp: nat)
    ensures ExportBoard(flow, levels, config, stamp) == Err(NothingToExport) <==>
      forall path :: GetByPath(flow.data, path).Some? && |path| <= |levels| ==> !InScope(GetByPath(flow.data, path).value, config)
  {
    NothingToExportIff(flow.data, levels, config);
  }

  /**
   * A board assembled from a well-formed card state keeps that state's
   * guarantees, its dynamic list links only cards it holds, and without the
   * dynamic list it holds the cards alone.
   */
  lemma BoardOfWellFormed(flow: Flow, levels: seq<Level>, config: Config, boardId: string, columns: seq<Column>,
                          ctx: CardContext, st: CardState, units: nat, b: Board)
    requires CardStateOk(st, ctx) && ctx.columns == columns
    requires !config.exportDynamicList ==> |st.cards| == units
    requires b == BoardOf(flow, levels, config, boardId, columns, st)
    ensures b.columns == columns
    ensures forall k :: 0 <= k < |b.cards| ==> b.cards[k].order == k && b.cards[k].columnId in ColumnIds(b.columns)
    ensures UniqueLabelNames(b.labels)
    ensures forall k, t :: 0 <= k < |b.cards| && t in b.cards[k].labels ==> t in LabelNames(b.labels)
    ensures forall k, x :: 0 <= k < |b.dynamicNodes| && x in b.dynamicNodes[k].linkedTaskIds ==> x in CardIds(b.cards)
    ensures !config.exportDynamicList ==> |b.cards| == units && b.dynamicNodes == []
  {
    if config.exportDynamicList {
      DynamicListEntries(flow.data, DynContext(config, levels, st.cardIdMap, st.stamp));
    }
  }

  /** The card state the export reaches is well formed, and has one card per unit when the dynamic list is off. */
  lemma ExportedCardsOk(config: Config, levels: seq<Level>, stamp: nat, boardId: string, columns: seq<Column>,
                        ctx: CardContext, start: CardState, nodes: seq<Visit>, st: CardState)
    requires DepthsBelow(nodes, |ctx.levels|)
    requires columns == ColumnLayout(config.exportReference, stamp + 1)
    requires ctx == BoardCardContext(config, levels, columns, boardId)
    requires start.cards == [] && start.labels == [] && start.cardIdMap == map[]
    requires st == ExportUnits(start, ctx, nodes)
    ensures CardStateOk(st, ctx)
    ensures !config.exportDynamicList ==> |st.cards| == |nodes|
  {
    BoardCardContextOk(config, levels, stamp + 1, boardId);
    ExportUnitsOk(start, ctx, nodes);
    if !config.exportDynamicList {
      OneCardPerUnit(start, ctx, nodes);
    }
  }

  /**
   * The exported board is consistent: its columns are the standard layout with
   * distinct ids, card `k` has order `k` and sits in one of the board's
   * columns, label names are unique and name every card tag, each dynamic-list
   * entry links only to cards of the board, and without the dynamic list every
   * unit in scope gets exactly one card.
   */
  lemma ExportBoardWellFormed(flow: Flow, levels: seq<Level>, config: Config, stamp: nat, b: Board)
    requires ExportBoard(flow, levels, config, stamp) == Ok(b)
    ensures b.columns == ColumnLayout(config.exportReference, stamp + 1)
    ensures forall i, j :: 0 <= i < j < |b.columns| ==> b.columns[i].id != b.columns[j].id
    ensures forall k :: 0 <= k < |b.cards| ==> b.cards[k].order == k && b.cards[k].columnId in ColumnIds(b.columns)
    ensures UniqueLabelNames(b.labels)
    ensures forall k, t :: 0 <= k < |b.cards| && t in b.cards[k].labels ==> t in LabelNames(b.labels)
    ensures forall k, x :: 0 <= k < |b.dynamicNodes| && x in b.dynamicNodes[k].linkedTaskIds ==> x in CardIds(b.cards)
    ensures !config.exportDynamicList ==> |b.cards| == |NodesToExport(flow.data, levels, config)| && b.dynamicNodes == []
  {
    var boardId, columns, ctx, st := ExportBoardParts(flow, levels, config, stamp, b);
    ColumnIdsDistinct(config.exportReference, stamp + 1);
    BoardOfWellFormed(flow, levels, config, boardId, columns, ctx, st, |NodesToExport(flow.data, levels, config)|, b);
  }

  /** The parts a successful export is assembled from, with the guarantees the card loop keeps. */
  lemma ExportBoardParts(flow: Flow, levels: seq<Level>, config: Config, stamp: nat, b: Board)
      returns (boardId: string, columns: seq<Column>, ctx: CardContext, st: CardState)
    requires ExportBoard(flow, levels, config, stamp) == Ok(b)
    ensures columns == ColumnLayout(config.exportReference, stamp + 1) && ctx.columns == columns
    ensures b == BoardOf(flow, levels, config, boardId, columns, st)
    ensures CardStateOk(st, ctx)
    ensures !config.exportDynamicList ==> |st.cards| == |NodesToExport(flow.data, levels, config)|
  {
    var nodes := NodesToExport(flow.data, levels, config);
    boardId := Mint("board", stamp);
    columns := ColumnLayout(config.exportReference, stamp + 1);
    var cardStamp := stamp + 1 + |LayoutNames(config.exportReference)|;
    ExportBoardOk(flow, levels, config, stamp, boardId, columns, cardStamp);
    ctx := BoardCardContext(config, levels, columns, boardId);
    var start := CardState([], [], map[], cardStamp);
    st := ExportUnits(start, ctx, nodes);
    OkInjective(ExportBoard(flow, levels, config, stamp), b, BoardFrom(flow, levels, config, boardId, columns, cardStamp, nodes));
    ExportedCardsOk(config, levels, stamp, boardId, columns, ctx, start, nodes, st);
  }

  /** `board.columns.push(...)`: the `References` column when asked for, then the four workflow columns. */
  method CreateColumns(exportReference: bool, clock: IdClock) returns (columns: seq<Column>)
    modifies clock
    ensures columns == ColumnLayout(exportReference, old(clock.stamp))
    ensures clock.stamp == old(clock.stamp) + |LayoutNames(exportReference)|
  {
    columns := [];
    if exportReference {
      var id := clock.GenerateId("col");
      columns := columns + [Column(id, "References", 0, None, true)];
    }
    var startOrder := if exportReference then 1 else 0;
    var todo := clock.GenerateId("col");
    var inProgress := clock.GenerateId("col");
    var review := clock.GenerateId("col");
    var done := clock.GenerateId("col");
    columns := columns + [Column(todo, "To Do", startOrder, None, false),
                          Column(inProgress, "In Progress", startOrder + 1, Some(5), false),
                          Column(review, "Review", startOrder + 2, None, false),
                          Column(done, "Done", startOrder + 3, None, false)];
  }

  /** `board.labels.find(l => l.name === name)`. */
  function FindLabel(labels: seq<Label>, name: string): (r: Option<Label>)
    ensures r.Some? <==> name in LabelNames(labels)
    ensures r.Some? ==> r.value in labels && r.value.name == name
  {
    if labels == [] then None
    else if labels[0].name == name then Some(labels[0])
    else
      var r := FindLabel(labels[1..], name);
      assert LabelNames(labels) == {labels[0].name} + LabelNames(labels[1..]);
      r
  }

  /**
   * `createCardForNode`: a card minted from the clock, then each tag looked
   * up in the palette, a missing one added as a new label.
   */
  method CreateCardForNode(node: Node, level: Level, columnId: string, boardId: string, order: nat,
                           labels: seq<Label>, clock: IdClock) returns (card: Card, palette: seq<Label>)
    modifies clock
    ensures card == MakeCard(Mint("card", old(clock.stamp)), boardId, columnId, order, node, level)
    ensures (palette, clock.stamp) == LabelsFor(labels, node.tags, old(clock.stamp) + 1)
  {
    var id := clock.GenerateId("card");
    card := Card(id, boardId, columnId, order, CardTitle(node, level), CardText(node), node.id,
                 SourceGrade(node), node.completed, Attachments(node.footer), []);
    palette := labels;
    var k := 0;
    while k < |node.tags|
      invariant 0 <= k <= |node.tags|
      invariant (palette, clock.stamp) == LabelsFor(labels, node.tags[..k], old(clock.stamp) + 1)
      invariant card == Card(id, boardId, columnId, order, CardTitle(node, level), CardText(node), node.id,
                             SourceGrade(node), node.completed, Attachments(node.footer), node.tags[..k])
    {
      assert node.tags[..k + 1][..k] == node.tags[..k];
      palette := FindOrCreateLabel(palette, node.tags[k], clock);
      card := card.(labels := card.labels + [node.tags[k]]);
      k := k + 1;
    }
    assert node.tags[..k] == node.tags;
  }

  /** `board.labels.find(l => l.name === tag)`, pushing a new label when there is none. */
  method FindOrCreateLabel(labels: seq<Label>, tag: string, clock: IdClock) returns (palette: seq<Label>)
    modifies clock
    ensures (palette, clock.stamp) == LookUpLabel(labels, tag, old(clock.stamp))
  {
    palette := labels;
    var existing := FindLabel(palette, tag);
    if existing.None? {
      var labelId := clock.GenerateId("label");
      palette := palette + [Label(labelId, tag)];
    }
  }

  lemma IdsOfPush(cards: seq<Card>, card: Card, from: nat)
    requires from <= |cards|
    ensures IdsOf((cards + [card])[from..]) == IdsOf(cards[from..]) + [card.id]
  {
    assert (cards + [card])[from..] == cards[from..] + [card];
  }

  /**
   * The `nodesToExport.forEach` callback: the unit's cards, one per planned
   * column, pushed in order, and their ids recorded in `cardIdMap`.
   */
  method ExportNodeCards(v: Visit, ctx: CardContext, cards: seq<Card>, labels: seq<Label>,
                         cardIdMap: map<string, seq<string>>, clock: IdClock)
    returns (cards': seq<Card>, labels': seq<Label>, cardIdMap': map<string, seq<string>>)
    requires v.depth < |ctx.levels| && ctx.columns != []
    modifies clock
    ensures CardState(cards', labels', cardIdMap', clock.stamp)
      == ExportUnit(CardState(cards, labels, cardIdMap, old(clock.stamp)), ctx, v)
  {
    ghost var st := CardState(cards, labels, cardIdMap, clock.stamp);
    cards', labels', cardIdMap' := cards, labels, cardIdMap;
    var cardsToCreate := CardColumns(ctx, v.node, v.depth);
    if |cardsToCreate| > 0 {
      var cardIds := [];
      var j := 0;
      while j < |cardsToCreate|
        invariant 0 <= j <= |cardsToCreate|
        invariant CardState(cards', labels', cardIdMap', clock.stamp) == AddCards(st, ctx, v.node, v.depth, cardsToCreate[..j])
        invariant |cards'| == |cards| + j
        invariant cardIds == IdsOf(cards'[|cards|..])
      {
        assert cardsToCreate[..j + 1][..j] == cardsToCreate[..j];
        var card, palette := CreateCardForNode(v.node, ctx.levels[v.depth], cardsToCreate[j], ctx.boardId, |cards'|, labels', clock);
        IdsOfPush(cards', card, |cards|);
        cards' := cards' + [card];
        labels' := palette;
        cardIds := cardIds + [card.id];
        j := j + 1;
      }
      assert cardsToCreate[..j] == cardsToCreate;
      cardIdMap' := cardIdMap'[v.node.id := cardIds];
    }
  }

  /** The card loop of `executeWorkflowExport` over `nodesToExport`. */
  method CreateCards(nodes: seq<Visit>, ctx: CardContext, clock: IdClock, ghost stamp: nat)
    returns (cards: seq<Card>, labels: seq<Label>, cardIdMap: map<string, seq<string>>)
    requires DepthsBelow(nodes, |ctx.levels|) && ctx.columns != [] && clock.stamp == stamp
    modifies clock
    ensures CardState(cards, labels, cardIdMap, clock.stamp) == ExportUnits(CardState([], [], map[], stamp), ctx, nodes)
  {
    ghost var start := CardState([], [], map[], stamp);
    cards, labels, cardIdMap := [], [], map[];
    var i := 0;
    while i < |nodes|
      invariant 0 <= i <= |nodes|
      invariant DepthsBelow(nodes[..i], |ctx.levels|)
      invariant CardState(cards, labels, cardIdMap, clock.stamp) == ExportUnits(start, ctx, nodes[..i])
    {
      assert nodes[..i + 1][..i] == nodes[..i];
      cards, labels, cardIdMap := ExportNodeCards(nodes[i], ctx, cards, labels, cardIdMap, clock);
      i := i + 1;
    }
    assert nodes[..i] == nodes;
  }

  /**
   * `executeWorkflowExport` from the collection of the units to the finished
   * board (loading and saving the boards file aside).
   */
  method ExecuteWorkflowExport(flow: Flow, levels: seq<Level>, config: Config, clock: IdClock)
    returns (r: Result<Board, ExportError>)
    modifies clock
    ensures r == ExportBoard(flow, levels, config, old(clock.stamp))
    ensures r.Err? ==> clock.stamp == old(clock.stamp)
    ensures r.Ok? ==> clock.stamp == old(clock.stamp) + 1 + |r.value.columns| + |r.value.cards| + |r.value.labels| + |r.value.dynamicNodes|
  {
    var empty: seq<Visit> := [];
    var nodesToExport := CollectNodes(flow.data, [], levels, config, empty);
    AppendEmpty(empty, NodesToExport(flow.data, levels, config), nodesToExport);
    if |nodesToExport| == 0 {
      return Err(NothingToExport);
    }
    var board := BuildBoard(flow, levels, config, nodesToExport, clock);
    r := Ok(board);
  }

  /** The part of `executeWorkflowExport` after the units are collected: board id, columns, cards, dynamic list. */
  method BuildBoard(flow: Flow, levels: seq<Level>, config: Config, nodesToExport: seq<Visit>, clock: IdClock)
    returns (b: Board)
    requires nodesToExport == NodesToExport(flow.data, levels, config) && nodesToExport != []
    modifies clock
    ensures ExportBoard(flow, levels, config, old(clock.stamp)) == Ok(b)
    ensures clock.stamp == old(clock.stamp) + 1 + |b.columns| + |b.cards| + |b.labels| + |b.dynamicNodes|
  {
    ghost var stamp := clock.stamp;
    var boardId := clock.GenerateId("board");
    var columns := CreateColumns(config.exportReference, clock);
    var referenceColumnId := if config.exportReference then columns[0].id else "";
    var todo := FindColumn(columns, "To Do");
    var defaultColumnId := if todo.Some? then columns[todo.value].id else "";
    var ctx := CardContext(config, levels, columns, referenceColumnId, defaultColumnId, boardId);
    assert ctx == BoardCardContext(config, levels, columns, boardId);
    ghost var cardStamp := clock.stamp;
    ExportBoardOk(flow, levels, config, stamp, boardId, columns, cardStamp);
    var cards, labels, cardIdMap := CreateCards(nodesToExport, ctx, clock, cardStamp);
    ghost var cardsEnd := clock.stamp;
    ExportUnitsStamp(CardState([], [], map[], cardStamp), ctx, nodesToExport);
    var dynamicNodes := [];
    if config.exportDynamicList {
      dynamicNodes := BuildDynamicList(flow.data, DynContext(config, levels, cardIdMap, clock.stamp), clock);
    }
    BoardAssembled(flow, levels, config, boardId, columns, ctx, cardStamp, nodesToExport, cards, labels, cardIdMap, cardsEnd, dynamicNodes);
    b := Board(boardId, config.boardName, BoardDescription(config, flow.name), flow.id,
               columns, cards, labels, config.exportDynamicList, dynamicNodes);
  }

  datatype SubmitError = Invalid(configError: ConfigError) | ExportFailed(exportError: ExportError)

  /** `handleExportSubmit`: validate and gather the form, then run the export. */
  method HandleExportSubmit(form: ExportForm, flow: Flow, levels: seq<Level>, clock: IdClock)
    returns (r: Result<Board, SubmitError>)
    modifies clock
    ensures GatherConfig(form, flow.name).Err? ==>
      r == Err(Invalid(GatherConfig(form, flow.name).error)) && clock.stamp == old(clock.stamp)
    ensures GatherConfig(form, flow.name).Ok? ==>
      match ExportBoard(flow, levels, GatherConfig(form, flow.name).value, old(clock.stamp))
      case Ok(b) => r == Ok(b)
      case Err(e) => r == Err(ExportFailed(e))
  {
    var gathered := GatherConfig(form, flow.name);
    if gathered.Err? {
      return Err(Invalid(gathered.error));
    }
    var exported := ExecuteWorkflowExport(flow, levels, gathered.value, clock);
    if exported.Err? {
      return Err(ExportFailed(exported.error));
    }
    r := Ok(exported.value);
  }
}
