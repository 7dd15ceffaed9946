/**
 * The card half of `executeWorkflowExport` (export-to-board-module.js): the
 * column layout, `getColumnIdByName`, the per-unit card plan,
 * `createCardForNode` and the label palette. Each piece is a specification
 * function; the loop that creates the cards is proved against `ExportUnits`.
 */
module ExportCards {
  import opened Wrappers
  import opened Ids
  import opened Workflow
  import opened Board
  import opened ExportConfig

  /** The `columnMap` of `getColumnIdByName`: known keys name a column, any other key is taken as a name. */
  function ColumnNameFor(columnKey: string): string
  {
    if columnKey == "todo" then "To Do"
    else if columnKey == "in-progress" then "In Progress"
    else if columnKey == "review" then "Review"
    else if columnKey == "done" then "Done"
    else columnKey
  }

  /** The index of the first column called `name`, as `columns.find` would pick it. */
  function FindColumn(columns: seq<Column>, name: string): (r: Option<nat>)
    ensures r.Some? ==>
      && r.value < |columns| && columns[r.value].name == name
      && forall j :: 0 <= j < r.value ==> columns[j].name != name
    ensures r.None? ==> forall j :: 0 <= j < |columns| ==> columns[j].name != name
  {
    if columns == [] then None
    else if columns[0].name == name then Some(0)
    else match FindColumn(columns[1..], name)
      case None => None
      case Some(i) => Some(i + 1)
  }

  /**
   * `getColumnIdByName`: the id of the first column with the key's name, else
   * the first column's id, else nothing (`undefined`) on a board without columns.
   */
  function GetColumnIdByName(columns: seq<Column>, columnKey: string): (r: Option<string>)
    ensures r.Some? <==> columns != []
    ensures r.Some? ==> r.value in ColumnIds(columns)
    ensures forall j ::
      (0 <= j < |columns| && columns[j].name == ColumnNameFor(columnKey)
       && forall i :: 0 <= i < j ==> columns[i].name != ColumnNameFor(columnKey)) ==> r == Some(columns[j].id)
    ensures columns != [] && (forall j :: 0 <= j < |columns| ==> columns[j].name != ColumnNameFor(columnKey)) ==>
      r == Some(columns[0].id)
  {
    match FindColumn(columns, ColumnNameFor(columnKey))
    case Some(i) => Some(columns[i].id)
    case None => if columns == [] then None else Some(columns[0].id)
  }

  /** The names of the columns `executeWorkflowExport` pushes, in order. */
  function LayoutNames(exportReference: bool): seq<string>
  {
    (if exportReference then ["References"] else []) + ["To Do", "In Progress", "Review", "Done"]
  }

  /**
   * The columns `executeWorkflowExport` pushes: a locked `References` column when
   * reference cards are exported, then the four workflow columns, with orders
   * 0, 1, ... and only `In Progress` limited (to 5). Column ids are minted from
   * `stamp` on.
   */
  function ColumnLayout(exportReference: bool, stamp: nat): seq<Column>
  {
    var names := LayoutNames(exportReference);
    seq(|names|, i requires 0 <= i < |names| =>
      Column(Mint("col", stamp + i), names[i], i, if names[i] == "In Progress" then Some(5) else None, names[i] == "References"))
  }

  function ColumnNames(columns: seq<Column>): seq<string>
  {
    seq(|columns|, i requires 0 <= i < |columns| => columns[i].name)
  }

  /** The layout column by column: the i-th column's id is minted from `stamp + i`. */
  lemma ColumnLayoutColumns(exportReference: bool, stamp: nat)
    ensures var cols := ColumnLayout(exportReference, stamp);
      var o := if exportReference then 1 else 0;
      && |cols| == o + 4
      && (forall i :: 0 <= i < |cols| ==> cols[i].id == Mint("col", stamp + i) && cols[i].order == i)
      && (exportReference ==> cols[0] == Column(Mint("col", stamp), "References", 0, None, true))
      && cols[o].name == "To Do" && cols[o].limit.None? && !cols[o].locked
      && cols[o + 1].name == "In Progress" && cols[o + 1].limit == Some(5) && !cols[o + 1].locked
      && cols[o + 2].name == "Review" && cols[o + 2].limit.None? && !cols[o + 2].locked
      && cols[o + 3].name == "Done" && cols[o + 3].limit.None? && !cols[o + 3].locked
  {
  }

  /** No two columns of the layout share an id. */
  lemma ColumnIdsDistinct(exportReference: bool, stamp: nat)
    ensures var cols := ColumnLayout(exportReference, stamp);
      forall i, j :: 0 <= i < j < |cols| ==> cols[i].id != cols[j].id
  {
    var cols := ColumnLayout(exportReference, stamp);
    ColumnLayoutColumns(exportReference, stamp);
    forall i, j | 0 <= i < j < |cols|
      ensures cols[i].id != cols[j].id
    {
      var a, b := Mint("col", stamp + i), Mint("col", stamp + j);
      assert cols[i].id == a && cols[j].id == b;
      if a == b {
        MintInjective("col", stamp + i, stamp + j);
      }
    }
  }

  /**
   * The layout: `References` first iff reference cards are exported, the four
   * workflow columns after it with consecutive orders from 0, only `References`
   * locked and only `In Progress` limited (to 5).
   */
  lemma ColumnLayoutShape(exportReference: bool, stamp: nat)
    ensures var cols := ColumnLayout(exportReference, stamp);
      && ColumnNames(cols) == (if exportReference then ["References"] else []) + ["To Do", "In Progress", "Review", "Done"]
      && (forall i :: 0 <= i < |cols| ==> cols[i].order == i)
      && (forall i :: 0 <= i < |cols| ==> (cols[i].locked <==> i == 0 && exportReference))
      && (forall i :: 0 <= i < |cols| ==> (cols[i].limit.Some? <==> cols[i].name == "In Progress"))
  {
    var cols := ColumnLayout(exportReference, stamp);
    if exportReference {
      assert ColumnNames(cols) == [cols[0].name, cols[1].name, cols[2].name, cols[3].name, cols[4].name];
    } else {
      assert ColumnNames(cols) == [cols[0].name, cols[1].name, cols[2].name, cols[3].name];
    }
  }

  /** The column keys the dynamic-list selectors offer resolve to the matching workflow columns of the layout. */
  lemma ColumnKeysResolve(exportReference: bool, stamp: nat)
    ensures var cols := ColumnLayout(exportReference, stamp);
      var o := if exportReference then 1 else 0;
      && GetColumnIdByName(cols, "todo") == Some(cols[o].id)
      && GetColumnIdByName(cols, "in-progress") == Some(cols[o + 1].id)
      && GetColumnIdByName(cols, "review") == Some(cols[o + 2].id)
      && GetColumnIdByName(cols, "done") == Some(cols[o + 3].id)
  {
    ColumnFound(exportReference, stamp, 0);
    ColumnFound(exportReference, stamp, 1);
    ColumnFound(exportReference, stamp, 2);
    ColumnFound(exportReference, stamp, 3);
  }

  lemma ColumnFound(exportReference: bool, stamp: nat, k: nat)
    requires k < 4
    ensures var names := ["To Do", "In Progress", "Review", "Done"];
      FindColumn(ColumnLayout(exportReference, stamp), names[k]) == Some((if exportReference then 1 else 0) + k)
  {
    var names := ["To Do", "In Progress", "Review", "Done"];
    var cols := ColumnLayout(exportReference, stamp);
    ColumnLayoutShape(exportReference, stamp);
    var r := FindColumn(cols, names[k]);
    assert ColumnNames(cols)[(if exportReference then 1 else 0) + k] == names[k];
    if r.Some? {
      assert ColumnNames(cols)[r.value] == names[k];
    }
  }

  /** A key that names no column of the layout falls back to the first column. */
  lemma UnknownKeyFallsBack(exportReference: bool, stamp: nat, columnKey: string)
    requires ColumnNameFor(columnKey) !in ColumnNames(ColumnLayout(exportReference, stamp))
    ensures GetColumnIdByName(ColumnLayout(exportReference, stamp), columnKey) == Some(ColumnLayout(exportReference, stamp)[0].id)
  {
    var cols := ColumnLayout(exportReference, stamp);
    ColumnLayoutColumns(exportReference, stamp);
    forall j | 0 <= j < |cols|
      ensures cols[j].name != ColumnNameFor(columnKey)
    {
      assert ColumnNames(cols)[j] == cols[j].name;
    }
  }

  /** What the card loop needs from its surroundings: the modelled config, the levels, the columns and the board id. */
  datatype CardContext = CardContext(
    config: Config,
    levels: seq<Level>,
    columns: seq<Column>,
    referenceColumnId: string,
    defaultColumnId: string,
    boardId: string)

  predicate ContextOk(ctx: CardContext)
  {
    && ctx.columns != []
    && (ctx.config.exportReference ==> ctx.referenceColumnId in ColumnIds(ctx.columns))
    && ctx.defaultColumnId in ColumnIds(ctx.columns)
  }

  /** The unit gets a reference card: reference cards are exported and it sits at the reference level. */
  predicate IsReference(config: Config, depth: nat)
  {
    config.exportReference && depth == config.referenceLevel
  }

  /** The unit was given a board column in the dynamic-list tree. */
  predicate HasAssignment(config: Config, node: Node)
  {
    node.id in config.boardColumnAssignments && config.boardColumnAssignments[node.id] != ""
  }

  /**
   * `cardsToCreate`: the columns of the cards one exported unit gets, in creation
   * order. A reference card comes first; with the dynamic list on, a card in the
   * assigned column follows; with it off, a unit without a reference card gets
   * one card in `To Do`.
   */
  function CardColumns(ctx: CardContext, node: Node, depth: nat): (r: seq<string>)
    requires ctx.columns != []
    ensures |r| <= 2
    ensures IsReference(ctx.config, depth) ==> |r| >= 1 && r[0] == ctx.referenceColumnId
    ensures ctx.config.exportDynamicList ==>
      |r| == (if IsReference(ctx.config, depth) then 1 else 0) + (if HasAssignment(ctx.config, node) then 1 else 0)
    ensures ctx.config.exportDynamicList && HasAssignment(ctx.config, node) ==>
      r[|r| - 1] == GetColumnIdByName(ctx.columns, ctx.config.boardColumnAssignments[node.id]).value
    ensures !ctx.config.exportDynamicList ==>
      r == [if IsReference(ctx.config, depth) then ctx.referenceColumnId else ctx.defaultColumnId]
    ensures ContextOk(ctx) ==> forall i :: 0 <= i < |r| ==> r[i] in ColumnIds(ctx.columns)
  {
    var reference := if IsReference(ctx.config, depth) then [ctx.referenceColumnId] else [];
    if ctx.config.exportDynamicList then
      if HasAssignment(ctx.config, node) then
        reference + [GetColumnIdByName(ctx.columns, ctx.config.boardColumnAssignments[node.id]).value]
      else
        reference
    else if reference != [] then
      reference
    else
      [ctx.defaultColumnId]
  }

  /** `node.name || \`Untitled ${level.singularName}\``. */
  function CardTitle(node: Node, level: Level): string
  {
    if node.name != "" then node.name else "Untitled " + level.singularName
  }

  /** `node.text || node.description || ''`. */
  function CardText(node: Node): string
  {
    if node.text != "" then node.text else node.description
  }

  /** `note.title || 'Imported Note'`. */
  function NoteTitle(note: Note): (r: string)
    ensures r != ""
    ensures note.title != "" ==> r == note.title
  {
    if note.title != "" then note.title else "Imported Note"
  }

  /**
   * `link.url || link`: a bare string is its own URL (it has no `url`
   * property); an object gives its `url`.
   */
  function LinkUrl(link: Link): string
  {
    match link
    case BareLink(address) => address
    case LinkRecord(url, _, _) => url
  }

  /** `link.text || link.title || 'Link'`: a bare string has neither property. */
  function LinkTitle(link: Link): (r: string)
    ensures r != ""
    ensures link.BareLink? ==> r == "Link"
    ensures link.LinkRecord? && link.text != "" ==> r == link.text
    ensures link.LinkRecord? && link.text == "" && link.title != "" ==> r == link.title
  {
    match link
    case BareLink(_) => "Link"
    case LinkRecord(_, text, title) => if text != "" then text else if title != "" then title else "Link"
  }

  /** `image.url || image`, as for links. */
  function ImageUrl(image: Image): string
  {
    match image
    case BareImage(address) => address
    case ImageRecord(url, _) => url
  }

  /** `image.title || 'Image'`: a bare string has no title. */
  function ImageTitle(image: Image): (r: string)
    ensures r != ""
    ensures image.BareImage? ==> r == "Image"
    ensures image.ImageRecord? && image.title != "" ==> r == image.title
  {
    match image
    case BareImage(_) => "Image"
    case ImageRecord(_, title) => if title != "" then title else "Image"
  }

  /** A unit's footer as card attachments: its comments, then its notes, then its links, then its images. */
  function Attachments(footer: Footer): (r: seq<Attachment>)
    ensures |r| == |footer.comments| + |footer.notes| + |footer.links| + |footer.images|
  {
    seq(|footer.comments|, i requires 0 <= i < |footer.comments| => CommentAttachment(footer.comments[i]))
    + seq(|footer.notes|, i requires 0 <= i < |footer.notes| =>
        NoteAttachment(NoteTitle(footer.notes[i]), footer.notes[i].content))
    + seq(|footer.links|, i requires 0 <= i < |footer.links| =>
        LinkAttachment(LinkUrl(footer.links[i]), LinkTitle(footer.links[i])))
    + seq(|footer.images|, i requires 0 <= i < |footer.images| =>
        ImageAttachment(ImageUrl(footer.images[i]), ImageTitle(footer.images[i])))
  }

  /**
   * Each footer item lands in its own block, in footer order, as the
   * attachment of its kind: a bare link or image string becomes the URL, an
   * object gives its `url`, and every title falls back as the source does.
   */
  lemma AttachmentsInOrder(footer: Footer)
    ensures var r := Attachments(footer);
      var c, n, l := |footer.comments|, |footer.notes|, |footer.links|;
      && (forall i :: 0 <= i < c ==> r[i] == CommentAttachment(footer.comments[i]))
      && (forall i :: 0 <= i < n ==> r[c + i] == NoteAttachment(NoteTitle(footer.notes[i]), footer.notes[i].content))
      && (forall i :: 0 <= i < l ==>
            && r[c + n + i].LinkAttachment? && r[c + n + i].title == LinkTitle(footer.links[i])
            && (footer.links[i].BareLink? ==> r[c + n + i].url == footer.links[i].address)
            && (footer.links[i].LinkRecord? ==> r[c + n + i].url == footer.links[i].url))
      && (forall i :: 0 <= i < |footer.images| ==>
            && r[c + n + l + i].ImageAttachment? && r[c + n + l + i].title == ImageTitle(footer.images[i])
            && (footer.images[i].BareImage? ==> r[c + n + l + i].url == footer.images[i].address)
            && (footer.images[i].ImageRecord? ==> r[c + n + l + i].url == footer.images[i].url))
  {
  }

  /** `node.grade || null`: a grade of 0 is not recorded. */
  function SourceGrade(node: Node): Option<int>
  {
    if node.grade != 0 then Some(node.grade) else None
  }

  /** The card `createCardForNode` builds for a unit in a column (its labels aside from the palette). */
  function MakeCard(id: string, boardId: string, columnId: string, order: nat, node: Node, level: Level): (r: Card)
    ensures r.title != "" && r.sourceId == node.id
    ensures |r.attachments| == |node.footer.comments| + |node.footer.notes| + |node.footer.links| + |node.footer.images|
  {
    Card(id, boardId, columnId, order, CardTitle(node, level), CardText(node), node.id,
         SourceGrade(node), node.completed, Attachments(node.footer), node.tags)
  }

  /** One tag looked up in the palette: kept as is when a label has that name, else a new label minted from `stamp`. */
  function LookUpLabel(labels: seq<Label>, tag: string, stamp: nat): (seq<Label>, nat)
  {
    if tag in LabelNames(labels) then (labels, stamp)
    else (labels + [Label(Mint("label", stamp), tag)], stamp + 1)
  }

  /**
   * The palette after the unit's tags have been looked up in turn: a tag the
   * palette lacks gets a new label whose id is minted from the running stamp.
   * Defined from the last tag so that a loop over the tags can be checked against it.
   */
  function LabelsFor(labels: seq<Label>, tags: seq<string>, stamp: nat): (r: (seq<Label>, nat))
    ensures r.1 >= stamp
  {
    if tags == [] then (labels, stamp)
    else
      var prev := LabelsFor(labels, tags[..|tags| - 1], stamp);
      LookUpLabel(prev.0, tags[|tags| - 1], prev.1)
  }

  /** Looking up a unit's tags keeps the palette's names unique and leaves it naming exactly the old names plus the tags. */
  lemma {:induction false} LabelsForGrow(labels: seq<Label>, tags: seq<string>, stamp: nat)
    requires UniqueLabelNames(labels)
    ensures var r := LabelsFor(labels, tags, stamp);
      UniqueLabelNames(r.0) && LabelNames(r.0) == LabelNames(labels) + (set t | t in tags)
  {
    if tags != [] {
      var init := tags[..|tags| - 1];
      var tag := tags[|tags| - 1];
      LabelsForGrow(labels, init, stamp);
      var prev := LabelsFor(labels, init, stamp);
      LookUpLabelGrow(prev.0, tag, prev.1);
      assert (set t | t in tags) == (set t | t in init) + {tag};
    }
  }

  /** Looking up tags never drops or reorders the labels already in the palette. */
  lemma {:induction false} LabelsForKeeps(labels: seq<Label>, tags: seq<string>, stamp: nat)
    ensures var r := LabelsFor(labels, tags, stamp);
      |r.0| >= |labels| && r.0[..|labels|] == labels
  {
    if tags != [] {
      var init := tags[..|tags| - 1];
      LabelsForKeeps(labels, init, stamp);
      var prev := LabelsFor(labels, init, stamp);
      var r := LabelsFor(labels, tags, stamp);
      assert r.0[..|prev.0|] == prev.0;
      assert r.0[..|labels|] == r.0[..|prev.0|][..|labels|];
    }
  }

  /**
   * Looking up one tag keeps the palette's names unique and its labels in
   * place, adds the tag to its names, and uses a stamp exactly when a label is created.
   */
  lemma LookUpLabelGrow(labels: seq<Label>, tag: string, stamp: nat)
    requires UniqueLabelNames(labels)
    ensures var r := LookUpLabel(labels, tag, stamp);
      && UniqueLabelNames(r.0)
      && |r.0| >= |labels| && r.0[..|labels|] == labels
      && LabelNames(r.0) == LabelNames(labels) + {tag}
      && r.1 == stamp + |r.0| - |labels|
  {
    if tag !in LabelNames(labels) {
      var next := labels + [Label(Mint("label", stamp), tag)];
      assert next[..|labels|] == labels;
      assert LabelNames(next) == LabelNames(labels) + {tag};
      forall i, j | 0 <= i < j < |next|
        ensures next[i].name != next[j].name
      {
        if j == |next| - 1 {
          assert next[i] in labels;
        }
      }
    }
  }

  /** The state the card loop carries: cards so far, the palette, `cardIdMap` and the id clock. */
  datatype CardState = CardState(cards: seq<Card>, labels: seq<Label>, cardIdMap: map<string, seq<string>>, stamp: nat)

  /** One `createCardForNode` call followed by `board.cards.push(card)`. */
  function AddCard(st: CardState, ctx: CardContext, node: Node, depth: nat, columnId: string): CardState
    requires depth < |ctx.levels|
  {
    var card := MakeCard(Mint("card", st.stamp), ctx.boardId, columnId, |st.cards|, node, ctx.levels[depth]);
    var labelled := LabelsFor(st.labels, node.tags, st.stamp + 1);
    CardState(st.cards + [card], labelled.0, st.cardIdMap, labelled.1)
  }

  /** The cards for one unit, one per planned column, in order. */
  function AddCards(st: CardState, ctx: CardContext, node: Node, depth: nat, columnIds: seq<string>): (r: CardState)
    requires depth < |ctx.levels|
    ensures |r.cards| == |st.cards| + |columnIds|
  {
    if columnIds == [] then st
    else AddCard(AddCards(st, ctx, node, depth, columnIds[..|columnIds| - 1]), ctx, node, depth, columnIds[|columnIds| - 1])
  }

  function IdsOf(cards: seq<Card>): seq<string>
  {
    seq(|cards|, i requires 0 <= i < |cards| => cards[i].id)
  }

  /** One iteration of `nodesToExport.forEach`: the unit's cards, and `cardIdMap` updated when there are any. */
  function ExportUnit(st: CardState, ctx: CardContext, v: Visit): CardState
    requires v.depth < |ctx.levels| && ctx.columns != []
  {
    var columnIds := CardColumns(ctx, v.node, v.depth);
    var after := AddCards(st, ctx, v.node, v.depth, columnIds);
    if columnIds == [] then after
    else after.(cardIdMap := after.cardIdMap[v.node.id := IdsOf(after.cards[|st.cards|..])])
  }

  predicate DepthsBelow(vs: seq<Visit>, n: nat)
  {
    forall k :: 0 <= k < |vs| ==> vs[k].depth < n
  }

  /** The whole card loop over the exported units, defined from the last unit. */
  function ExportUnits(st: CardState, ctx: CardContext, vs: seq<Visit>): CardState
    requires DepthsBelow(vs, |ctx.levels|) && ctx.columns != []
  {
    if vs == [] then st
    else ExportUnit(ExportUnits(st, ctx, vs[..|vs| - 1]), ctx, vs[|vs| - 1])
  }

  /**
   * What the card loop keeps true: card `k` has order `k` and sits in a column
   * of the board, every tag on a card names a label of the palette, the palette's
   * names are unique, and `cardIdMap` holds one or two ids of existing cards per unit.
   */
  predicate CardStateOk(st: CardState, ctx: CardContext)
  {
    && UniqueLabelNames(st.labels)
    && (forall k :: 0 <= k < |st.cards| ==>
          && st.cards[k].order == k
          && st.cards[k].columnId in ColumnIds(ctx.columns)
          && forall t :: t in st.cards[k].labels ==> t in LabelNames(st.labels))
    && (forall id :: id in st.cardIdMap ==>
          1 <= |st.cardIdMap[id]| <= 2 && forall x :: x in st.cardIdMap[id] ==> x in CardIds(st.cards))
  }

  /** One card keeps the loop's invariant and appends exactly the card `createCardForNode` builds. */
  lemma AddCardOk(st: CardState, ctx: CardContext, node: Node, depth: nat, columnId: string)
    requires depth < |ctx.levels| && CardStateOk(st, ctx) && columnId in ColumnIds(ctx.columns)
    ensures var r := AddCard(st, ctx, node, depth, columnId);
      && CardStateOk(r, ctx)
      && r.cards == st.cards + [MakeCard(Mint("card", st.stamp), ctx.boardId, columnId, |st.cards|, node, ctx.levels[depth])]
      && r.cardIdMap == st.cardIdMap
      && LabelNames(st.labels) <= LabelNames(r.labels)
      && r.stamp > st.stamp
  {
    var r := AddCard(st, ctx, node, depth, columnId);
    LabelsForGrow(st.labels, node.tags, st.stamp + 1);
    forall k | 0 <= k < |r.cards|
      ensures r.cards[k].order == k && r.cards[k].columnId in ColumnIds(ctx.columns)
      ensures forall t :: t in r.cards[k].labels ==> t in LabelNames(r.labels)
    {
      if k < |st.cards| {
        assert r.cards[k] == st.cards[k];
      } else {
        forall t | t in r.cards[k].labels
          ensures t in LabelNames(r.labels)
        {
          assert t in (set u | u in node.tags);
        }
      }
    }
    forall id | id in r.cardIdMap
      ensures forall x :: x in r.cardIdMap[id] ==> x in CardIds(r.cards)
    {
      forall x | x in r.cardIdMap[id]
        ensures x in CardIds(r.cards)
      {
        var c :| c in st.cards && c.id == x;
        assert c in r.cards;
      }
    }
  }

  /** A unit's cards: one per planned column, in the planned order, all carrying the unit as their source. */
  lemma {:induction false} AddCardsOk(st: CardState, ctx: CardContext, node: Node, depth: nat, columnIds: seq<string>)
    requires depth < |ctx.levels| && CardStateOk(st, ctx)
    requires forall i :: 0 <= i < |columnIds| ==> columnIds[i] in ColumnIds(ctx.columns)
    ensures var r := AddCards(st, ctx, node, depth, columnIds);
      && CardStateOk(r, ctx)
      && |r.cards| == |st.cards| + |columnIds|
      && r.cards[..|st.cards|] == st.cards
      && (forall i :: 0 <= i < |columnIds| ==>
            r.cards[|st.cards| + i].columnId == columnIds[i] && r.cards[|st.cards| + i].sourceId == node.id
            && r.cards[|st.cards| + i].labels == node.tags)
      && r.cardIdMap == st.cardIdMap
      && LabelNames(st.labels) <= LabelNames(r.labels)
  {
    if columnIds != [] {
      var n := |columnIds| - 1;
      var mid := AddCards(st, ctx, node, depth, columnIds[..n]);
      AddCardsOk(st, ctx, node, depth, columnIds[..n]);
      AddCardOk(mid, ctx, node, depth, columnIds[n]);
      var r := AddCards(st, ctx, node, depth, columnIds);
      assert r == AddCard(mid, ctx, node, depth, columnIds[n]);
      assert r.cards[..|st.cards|] == mid.cards[..|st.cards|];
      forall i | 0 <= i < |columnIds|
        ensures r.cards[|st.cards| + i].columnId == columnIds[i] && r.cards[|st.cards| + i].sourceId == node.id
          && r.cards[|st.cards| + i].labels == node.tags
      {
        if i < n {
          assert r.cards[|st.cards| + i] == mid.cards[|st.cards| + i];
          assert columnIds[..n][i] == columnIds[i];
        }
      }
    }
  }

  /**
   * One unit keeps the invariant; its cards follow the plan of `CardColumns`, and
   * when it gets any, `cardIdMap` maps the unit's id to their ids in creation order.
   */
  lemma ExportUnitOk(st: CardState, ctx: CardContext, v: Visit)
    requires v.depth < |ctx.levels| && ContextOk(ctx) && CardStateOk(st, ctx)
    ensures var r := ExportUnit(st, ctx, v);
      var columnIds := CardColumns(ctx, v.node, v.depth);
      && CardStateOk(r, ctx)
      && |r.cards| == |st.cards| + |columnIds|
      && r.cards[..|st.cards|] == st.cards
      && (forall i :: 0 <= i < |columnIds| ==>
            r.cards[|st.cards| + i].columnId == columnIds[i] && r.cards[|st.cards| + i].sourceId == v.node.id)
      && (columnIds != [] ==> r.cardIdMap == st.cardIdMap[v.node.id := IdsOf(r.cards[|st.cards|..])])
      && (columnIds == [] ==> r.cardIdMap == st.cardIdMap)
      && LabelNames(st.labels) <= LabelNames(r.labels)
  {
    var columnIds := CardColumns(ctx, v.node, v.depth);
    var after := AddCards(st, ctx, v.node, v.depth, columnIds);
    AddCardsOk(st, ctx, v.node, v.depth, columnIds);
    if columnIds != [] {
      var r := ExportUnit(st, ctx, v);
      var ids := IdsOf(after.cards[|st.cards|..]);
      assert r.cardIdMap == after.cardIdMap[v.node.id := ids];
      forall x | x in ids
        ensures x in CardIds(r.cards)
      {
        var i :| 0 <= i < |ids| && ids[i] == x;
        assert after.cards[|st.cards| + i] in r.cards;
      }
    }
  }

  /** The card loop keeps its invariant over any run of exported units. */
  lemma {:induction false} ExportUnitsOk(st: CardState, ctx: CardContext, vs: seq<Visit>)
    requires DepthsBelow(vs, |ctx.levels|) && ContextOk(ctx) && CardStateOk(st, ctx)
    ensures CardStateOk(ExportUnits(st, ctx, vs), ctx)
  {
    if vs != [] {
      var n := |vs| - 1;
      assert DepthsBelow(vs[..n], |ctx.levels|);
      ExportUnitsOk(st, ctx, vs[..n]);
      ExportUnitOk(ExportUnits(st, ctx, vs[..n]), ctx, vs[n]);
    }
  }

  /** Each label the lookup creates takes one stamp: the clock advances by the number of new labels. */
  lemma {:induction false} LabelsForCount(labels: seq<Label>, tags: seq<string>, stamp: nat)
    ensures var r := LabelsFor(labels, tags, stamp);
      |r.0| >= |labels| && r.1 == stamp + |r.0| - |labels|
  {
    if tags != [] {
      LabelsForCount(labels, tags[..|tags| - 1], stamp);
    }
  }

  /** A unit's cards take one stamp per card and one per label they add to the palette. */
  lemma {:induction false} AddCardsStamp(st: CardState, ctx: CardContext, node: Node, depth: nat, columnIds: seq<string>)
    requires depth < |ctx.levels|
    ensures var r := AddCards(st, ctx, node, depth, columnIds);
      |r.labels| >= |st.labels| && r.stamp == st.stamp + |columnIds| + |r.labels| - |st.labels|
  {
    if columnIds != [] {
      var mid := AddCards(st, ctx, node, depth, columnIds[..|columnIds| - 1]);
      AddCardsStamp(st, ctx, node, depth, columnIds[..|columnIds| - 1]);
      LabelsForCount(mid.labels, node.tags, mid.stamp + 1);
    }
  }

  /**
   * The card loop mints every id once: the clock advances by exactly the
   * number of cards and labels it creates.
   */
  lemma {:induction false} ExportUnitsStamp(st: CardState, ctx: CardContext, vs: seq<Visit>)
    requires DepthsBelow(vs, |ctx.levels|) && ctx.columns != []
    ensures var r := ExportUnits(st, ctx, vs);
      && |r.cards| >= |st.cards| && |r.labels| >= |st.labels|
      && r.stamp == st.stamp + (|r.cards| - |st.cards|) + (|r.labels| - |st.labels|)
  {
    if vs != [] {
      var n := |vs| - 1;
      assert DepthsBelow(vs[..n], |ctx.levels|);
      var mid := ExportUnits(st, ctx, vs[..n]);
      ExportUnitsStamp(st, ctx, vs[..n]);
      AddCardsStamp(mid, ctx, vs[n].node, vs[n].depth, CardColumns(ctx, vs[n].node, vs[n].depth));
    }
  }

  /** Without the dynamic list every exported unit gets exactly one card. */
  lemma {:induction false} OneCardPerUnit(st: CardState, ctx: CardContext, vs: seq<Visit>)
    requires DepthsBelow(vs, |ctx.levels|) && ctx.columns != [] && !ctx.config.exportDynamicList
    ensures |ExportUnits(st, ctx, vs).cards| == |st.cards| + |vs|
  {
    if vs != [] {
      var n := |vs| - 1;
      assert DepthsBelow(vs[..n], |ctx.levels|);
      OneCardPerUnit(st, ctx, vs[..n]);
    }
  }
}
