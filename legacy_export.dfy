/**
 * The card-building parts of script.js `exportUnitToBoard` and
 * `exportTagToBoard`: a board whose cards are a unit's descendants, or every
 * unit carrying a tag, in preorder. Ids come from the shared clock; fetching,
 * saving, timestamps and colours are not modelled.
 *
 * `exportUnitToBoard` takes the unit's path string (`data.i.subcategories.j…`)
 * and computes the depth as half the number of dots in it. JavaScript numbers
 * allow halves, so a depth here is a whole part and a flag for a half;
 * `template.levels[depth]` exists only for a whole depth.
 */
module LegacyExport {
  import opened Wrappers
  import opened Ids
  import opened Workflow
  import opened Execution
  import opened Board
  import opened Seqs

  datatype LinkItem = LinkItem(id: string, url: string, name: string)
  datatype CommentItem = CommentItem(id: string, text: string)

  datatype LegacyCard = LegacyCard(
    id: string,
    title: string,
    description: string,
    columnId: string,
    order: nat,
    labels: seq<string>,
    attachments: seq<LinkItem>,
    comments: seq<CommentItem>)

  datatype LegacyBoard = LegacyBoard(
    id: string,
    name: string,
    description: string,
    columnIds: seq<string>,
    cards: seq<LegacyCard>,
    labels: seq<Label>)

  /** What the export ends in: no unit (or no template), the user declined, a thrown error, or a board. */
  datatype Outcome =
    | NoUnit
    | Cancelled
    | NoCards
    | Failed(message: string)
    | Exported(board: LegacyBoard, stamp: nat)

  /** The four fixed columns of an exported board. */
  const BoardColumns: seq<string> := ["col-backlog", "col-todo", "col-progress", "col-done"]

  /** The three priority labels every unit board starts with. */
  const PriorityLabels: seq<Label> := [Label("label-high", "High Priority"), Label("label-medium", "Medium Priority"), Label("label-low", "Low Priority")]

  /** What the cards read: the template's levels, the board's labels, and the execution state of the flow. */
  datatype Ctx = Ctx(levels: seq<Level>, labels: seq<Label>, execs: map<string, Completion>, flowId: string)

  /** The cards pushed so far and the clock. */
  datatype CardRun = CardRun(cards: seq<LegacyCard>, stamp: nat)

  // Path strings and their depth

  /** The number of `.` in a string. */
  function CountDots(s: string): nat
  {
    if s == [] then 0 else CountDots(s[..|s| - 1]) + (if s[|s| - 1] == '.' then 1 else 0)
  }

  lemma {:induction false} CountDotsAppend(a: string, b: string)
    ensures CountDots(a + b) == CountDots(a) + CountDots(b)
    decreases |b|
  {
    if b == [] {
      assert a + b == a;
    } else {
      assert (a + b)[..|a + b| - 1] == a + b[..|b| - 1];
      CountDotsAppend(a, b[..|b| - 1]);
    }
  }

  lemma {:induction false} CountDotsDigits(s: string)
    requires forall i :: 0 <= i < |s| ==> '0' <= s[i] <= '9'
    ensures CountDots(s) == 0
    decreases |s|
  {
    if s != [] {
      CountDotsDigits(s[..|s| - 1]);
    }
  }

  /** The path string the tree renders for the unit at `q`: `data.i` for a root, `<parent>.subcategories.j` below. */
  function UnitPathString(q: Path): string
    requires q != []
  {
    if |q| == 1 then "data." + Digits(q[0])
    else UnitPathString(q[..|q| - 1]) + ".subcategories." + Digits(q[|q| - 1])
  }

  /** A unit path string has `2|q| - 1` dots: half of that is never a whole number. */
  lemma {:induction false} UnitPathDots(q: Path)
    requires q != []
    ensures CountDots(UnitPathString(q)) == 2 * |q| - 1
  {
    var last := Digits(q[|q| - 1]);
    CountDotsDigits(last);
    if |q| == 1 {
      CountDotsAppend("data.", last);
      assert "data." == "data" + ".";
      WordDots("data");
    } else {
      UnitPathDots(q[..|q| - 1]);
      var sub := ".subcategories.";
      CountDotsAppend(UnitPathString(q[..|q| - 1]), sub);
      CountDotsAppend(UnitPathString(q[..|q| - 1]) + sub, last);
      SubDots();
    }
  }

  lemma {:induction false} SubDots()
    ensures CountDots(".subcategories.") == 2
  {
    WordDots("subcategories");
    assert ".subcategories." == "." + ("subcategories" + ".");
    CountDotsAppend(".", "subcategories" + ".");
    assert CountDots(".") == 1 by {
      assert "."[..0] == "";
    }
  }

  /** A lower-case word followed by a dot has exactly one dot. */
  lemma {:induction false} WordDots(w: string)
    requires forall i :: 0 <= i < |w| ==> 'a' <= w[i] <= 'z'
    ensures CountDots(w + ".") == 1
  {
    CountDotsLetters(w);
    assert (w + ".")[..|w + "."| - 1] == w;
  }

  lemma {:induction false} CountDotsLetters(s: string)
    requires forall i :: 0 <= i < |s| ==> 'a' <= s[i] <= 'z'
    ensures CountDots(s) == 0
    decreases |s|
  {
    if s != [] {
      CountDotsLetters(s[..|s| - 1]);
    }
  }

  /** A depth that may be a whole number plus one half. */
  datatype Depth = Depth(whole: nat, half: bool)

  /** `count / 2` as a JavaScript number. */
  function HalfOf(count: nat): (r: Depth)
    ensures 2 * r.whole + (if r.half then 1 else 0) == count
  {
    Depth(count / 2, count % 2 == 1)
  }

  /** `template.levels[depth]`: `undefined` past the end and at every non-whole depth. */
  function LevelAt(levels: seq<Level>, d: Depth): (r: Option<Level>)
    ensures r.Some? <==> !d.half && d.whole < |levels|
    ensures r.Some? ==> r.value == levels[d.whole]
  {
    if !d.half && d.whole < |levels| then Some(levels[d.whole]) else None
  }

  /** `depth < levels.length - 1`, for a whole or half depth alike. */
  predicate BelowLast(levels: seq<Level>, d: Depth)
  {
    d.whole + 1 < |levels|
  }

  // Cards

  /** `u.name || \`Untitled ${level.singularName}\``. */
  function LegacyTitle(u: Node, level: Level): string
  {
    if u.name != "" then u.name else "Untitled " + level.singularName
  }

  /** `isCompleted(flow.id, u.id) ? 'col-done' : 'col-backlog'`. */
  function ColumnFor(ctx: Ctx, u: Node): string
  {
    if CompletedIn(ctx.execs, ctx.flowId, u.id) then "col-done" else "col-backlog"
  }

  /** `board.labels.find(l => l.name === tag)`. */
  function FindLabel(labels: seq<Label>, tag: string): (r: Option<string>)
    ensures r.Some? ==>
      exists i :: 0 <= i < |labels| && labels[i].name == tag && labels[i].id == r.value && forall j :: 0 <= j < i ==> labels[j].name != tag
    ensures r.None? ==> forall l :: l in labels ==> l.name != tag
  {
    if labels == [] then None
    else if labels[0].name == tag then Some(labels[0].id)
    else
      var r := FindLabel(labels[1..], tag);
      if r.Some? then
        var i :| 0 <= i < |labels[1..]| && labels[1..][i].name == tag && labels[1..][i].id == r.value
          && forall j :: 0 <= j < i ==> labels[1..][j].name != tag;
        assert forall j :: 0 < j < i + 1 ==> labels[j] == labels[1..][j - 1];
        assert labels[i + 1] == labels[1..][i];
        r
      else r
  }

  /** The label id a tag contributes to a card: its first label's id, when that is non-empty. */
  function TagLabelId(labels: seq<Label>, tag: string): seq<string>
  {
    var found := FindLabel(labels, tag);
    if found.Some? && found.value != "" then [found.value] else []
  }

  /** The card's label ids: each tag's label id, with tags that have none (or an empty id) dropped. */
  function LabelIdsFor(labels: seq<Label>, tags: seq<string>): (r: seq<string>)
    ensures |r| <= |tags|
    ensures forall id :: id in r ==> id != "" && exists l :: l in labels && l.id == id && l.name in tags
  {
    if tags == [] then []
    else
      var before := LabelIdsFor(labels, tags[..|tags| - 1]);
      var found := FindLabel(labels, tags[|tags| - 1]);
      assert forall t :: t in tags[..|tags| - 1] ==> t in tags;
      before + (if found.Some? && found.value != "" then [found.value] else [])
  }

  /**
   * `map` then `filter(Boolean)` keep the tags' order: the ids of a
   * concatenation are those of each part, and a single tag gives its label's
   * id when it has a non-empty one.
   */
  lemma {:induction false} LabelIdsForAppend(labels: seq<Label>, a: seq<string>, b: seq<string>)
    ensures LabelIdsFor(labels, a + b) == LabelIdsFor(labels, a) + LabelIdsFor(labels, b)
    ensures forall t :: LabelIdsFor(labels, [t]) == TagLabelId(labels, t)
    decreases |b|
  {
    forall t
      ensures LabelIdsFor(labels, [t]) == TagLabelId(labels, t)
    {
      assert [t][..0] == [];
    }
    if b == [] {
      assert a + b == a;
    } else {
      var init := b[..|b| - 1];
      var last := b[|b| - 1];
      assert (a + b)[..|a + b| - 1] == a + init;
      assert (a + b)[|a + b| - 1] == last;
      LabelIdsForAppend(labels, a, init);
      var kept := TagLabelId(labels, last);
      assert LabelIdsFor(labels, a + b) == LabelIdsFor(labels, a + init) + kept;
      assert LabelIdsFor(labels, b) == LabelIdsFor(labels, init) + kept;
      Seqs.AppendAssoc(LabelIdsFor(labels, a), LabelIdsFor(labels, init), LabelIdsFor(labels, a + init), kept);
    }
  }

  /** Every tag whose first label has a non-empty id contributes that id. */
  lemma {:induction false} LabelIdsForComplete(labels: seq<Label>, tags: seq<string>, t: string)
    requires t in tags && FindLabel(labels, t).Some? && FindLabel(labels, t).value != ""
    ensures FindLabel(labels, t).value in LabelIdsFor(labels, tags)
  {
    var init := tags[..|tags| - 1];
    assert tags == init + [tags[|tags| - 1]];
    if t in init {
      LabelIdsForComplete(labels, init, t);
    }
  }

  /** `link.url` and `link.text` read straight off the footer item; a bare string has neither (read as ""). */
  function LinkItems(links: seq<Link>, stamp: nat): (r: seq<LinkItem>)
    ensures |r| == |links|
  {
    seq(|links|, i requires 0 <= i < |links| =>
      LinkItem(Mint("attachment", stamp + i),
               if links[i].LinkRecord? then links[i].url else "",
               if links[i].LinkRecord? then links[i].text else ""))
  }

  function NoteComments(notes: seq<Note>, stamp: nat): (r: seq<CommentItem>)
    ensures |r| == |notes|
  {
    seq(|notes|, i requires 0 <= i < |notes| => CommentItem(Mint("comment", stamp + i), "**" + notes[i].title + "**\n\n" + notes[i].content))
  }

  function PlainComments(comments: seq<string>, stamp: nat): (r: seq<CommentItem>)
    ensures |r| == |comments|
  {
    seq(|comments|, i requires 0 <= i < |comments| => CommentItem(Mint("comment", stamp + i), comments[i]))
  }

  /** `card.description` once the Parent line is put in front for a non-empty parent name. */
  function WithParent(parentName: string, description: string): string
  {
    if parentName != "" then "**Parent:** " + parentName + "\n\n" + description else description
  }

  /** The clock readings one legacy card takes: its own id, then one per link, note and comment. */
  function CardCost(u: Node): nat
  {
    1 + |u.footer.links| + |u.footer.notes| + |u.footer.comments|
  }

  /**
   * What `convertToCard` makes of the unit `u` at a level, under the parent
   * `parentName`, at position `order` with the clock at `stamp`: the card
   * takes the `card-` id, then each footer link an attachment, then each
   * note and each comment a comment, in that order.
   */
  function LegacyCardOf(u: Node, level: Level, ctx: Ctx, parentName: string, order: nat, stamp: nat): LegacyCard
  {
    var links := |u.footer.links|;
    var notes := |u.footer.notes|;
    LegacyCard(
      Mint("card", stamp),
      LegacyTitle(u, level),
      WithParent(parentName, u.description),
      ColumnFor(ctx, u),
      order,
      LabelIdsFor(ctx.labels, u.tags),
      LinkItems(u.footer.links, stamp + 1),
      NoteComments(u.footer.notes, stamp + 1 + links) + PlainComments(u.footer.comments, stamp + 1 + links + notes))
  }

  /** The legacy card's contents, field by field, as `convertToCard` fills them. */
  lemma {:induction false} LegacyCardContents(u: Node, level: Level, ctx: Ctx, parentName: string, order: nat, stamp: nat)
    ensures var card := LegacyCardOf(u, level, ctx, parentName, order, stamp);
      card.id == Mint("card", stamp) && card.order == order
      && card.title == LegacyTitle(u, level) && card.columnId == ColumnFor(ctx, u)
      && card.description == WithParent(parentName, u.description)
      && card.labels == LabelIdsFor(ctx.labels, u.tags)
      && |card.attachments| == |u.footer.links|
      && (forall j :: 0 <= j < |u.footer.links| ==>
            card.attachments[j].id == Mint("attachment", stamp + 1 + j)
            && card.attachments[j].url == (if u.footer.links[j].LinkRecord? then u.footer.links[j].url else "")
            && card.attachments[j].name == (if u.footer.links[j].LinkRecord? then u.footer.links[j].text else ""))
      && |card.comments| == |u.footer.notes| + |u.footer.comments|
      && (forall j :: 0 <= j < |u.footer.notes| ==>
            card.comments[j] == CommentItem(Mint("comment", stamp + 1 + |u.footer.links| + j), "**" + u.footer.notes[j].title + "**\n\n" + u.footer.notes[j].content))
      && (forall j :: 0 <= j < |u.footer.comments| ==>
            card.comments[|u.footer.notes| + j] == CommentItem(Mint("comment", stamp + 1 + |u.footer.links| + |u.footer.notes| + j), u.footer.comments[j]))
  {
  }

  /**
   * The body of `convertToCard` once the level exists: the card is pushed
   * and the clock moves past its own id and its items' ids.
   */
  function AddLegacyCard(st: CardRun, ctx: Ctx, u: Node, parentName: string, level: Level): (r: CardRun)
    ensures |r.cards| == |st.cards| + 1 && r.cards[..|st.cards|] == st.cards
    ensures r.cards == st.cards + [LegacyCardOf(u, level, ctx, parentName, |st.cards|, st.stamp)]
    ensures r.stamp == st.stamp + CardCost(u)
  {
    CardRun(st.cards + [LegacyCardOf(u, level, ctx, parentName, |st.cards|, st.stamp)], st.stamp + CardCost(u))
  }

  /**
   * `forest.forEach(child => convertToCard(child, parentName, depth))`, the
   * depth given in half-steps: a unit whose level is missing adds nothing;
   * otherwise its card is pushed, and its children follow while the depth is
   * below the last level.
   */
  function ConvertFrom(ctx: Ctx, forest: seq<Node>, parentName: string, d: Depth, st: CardRun): (r: CardRun)
    ensures |st.cards| <= |r.cards| && r.cards[..|st.cards|] == st.cards
    decreases forest
  {
    if forest == [] then st
    else
      var u := forest[0];
      var level := LevelAt(ctx.levels, d);
      var st1 := if level.Some? then AddLegacyCard(st, ctx, u, parentName, level.value) else st;
      var st2 := if level.Some? && BelowLast(ctx.levels, d) then ConvertFrom(ctx, u.subcategories, u.name, Depth(d.whole + 1, d.half), st1) else st1;
      var r := ConvertFrom(ctx, forest[1..], parentName, d, st2);
      PrefixTrans(st.cards, st1.cards, st2.cards);
      PrefixTrans(st.cards, st2.cards, r.cards);
      r
  }

  /** At a depth that is not a whole number no card is ever made. */
  lemma {:induction false} ConvertFromHalf(ctx: Ctx, forest: seq<Node>, parentName: string, d: Depth, st: CardRun)
    requires d.half
    ensures ConvertFrom(ctx, forest, parentName, d, st) == st
    decreases forest
  {
    if forest != [] {
      ConvertFromHalf(ctx, forest[1..], parentName, d, st);
    }
  }

  /** The clock readings the cards for the visits `vs` take together. */
  function CostOf(vs: seq<Visit>): nat
  {
    if vs == [] then 0 else CardCost(vs[0].node) + CostOf(vs[1..])
  }

  lemma {:induction false} CostOfAppend(a: seq<Visit>, b: seq<Visit>)
    ensures CostOf(a + b) == CostOf(a) + CostOf(b)
  {
    if a == [] {
      assert a + b == b;
    } else {
      assert (a + b)[0] == a[0] && (a + b)[1..] == a[1..] + b;
      CostOfAppend(a[1..], b);
    }
  }

  /** The name of the unit at `path`; the roots have no parent, read as "". */
  function NameAt(data: seq<Node>, path: Path): string
  {
    if path == [] then ""
    else match GetByPath(data, path)
      case Some(n) => n.name
      case None => ""
  }

  /** The address of the sibling list a visit's unit sits in: its parent's address. */
  function ParentPath(v: Visit): Path
  {
    if v.path == [] then [] else v.path[..|v.path| - 1]
  }

  /**
   * How `convertToCard` makes the card for a visit of the flow's `data` at a
   * level, a position and a clock reading: under the name of the unit above it.
   */
  function Maker(ctx: Ctx, data: seq<Node>): (Visit, Level, nat, nat) -> LegacyCard
  {
    (v: Visit, level: Level, order: nat, stamp: nat) => LegacyCardOf(v.node, level, ctx, NameAt(data, ParentPath(v)), order, stamp)
  }

  /**
   * The cards are made by `make`, one each and in order, for the visits at
   * their levels, numbered from `offset`, each taking its ids where the
   * previous card's stopped.
   */
  predicate CardsFollow(cards: seq<LegacyCard>, vs: seq<Visit>, levels: seq<Level>, make: (Visit, Level, nat, nat) -> LegacyCard, offset: nat, stamp: nat)
    decreases vs
  {
    |cards| == |vs|
    && (vs != [] ==>
          vs[0].depth < |levels| && cards[0] == make(vs[0], levels[vs[0].depth], offset, stamp)
          && CardsFollow(cards[1..], vs[1..], levels, make, offset + 1, stamp + CardCost(vs[0].node)))
  }

  /** Card `i` of cards that follow the visits is made for visit `i`, after the ids of the cards before it. */
  lemma {:induction false} CardsFollowAt(cards: seq<LegacyCard>, vs: seq<Visit>, levels: seq<Level>, make: (Visit, Level, nat, nat) -> LegacyCard, offset: nat, stamp: nat, i: nat)
    requires CardsFollow(cards, vs, levels, make, offset, stamp) && i < |cards|
    ensures |cards| == |vs| && vs[i].depth < |levels|
    ensures cards[i] == make(vs[i], levels[vs[i].depth], offset + i, stamp + CostOf(vs[..i]))
    decreases i
  {
    if i == 0 {
      assert vs[..0] == [];
    } else {
      var next := stamp + CardCost(vs[0].node);
      CardsFollowAt(cards[1..], vs[1..], levels, make, offset + 1, next, i - 1);
      TailIndex(cards, i);
      TailIndex(vs, i);
      CostOfAppend([vs[0]], vs[1..][..i - 1]);
      assert CostOf([vs[0]]) == CardCost(vs[0].node) by {
        assert [vs[0]][1..] == [];
      }
      assert next + CostOf(vs[1..][..i - 1]) == stamp + CostOf(vs[..i]);
    }
  }

  lemma {:induction false} CardsFollowAppend(a: seq<LegacyCard>, va: seq<Visit>, b: seq<LegacyCard>, vb: seq<Visit>, levels: seq<Level>, make: (Visit, Level, nat, nat) -> LegacyCard, offset: nat, stamp: nat)
    requires CardsFollow(a, va, levels, make, offset, stamp) && CardsFollow(b, vb, levels, make, offset + |a|, stamp + CostOf(va))
    ensures CardsFollow(a + b, va + vb, levels, make, offset, stamp)
    decreases va
  {
    if va == [] {
      assert a + b == b && va + vb == vb;
    } else {
      ConsSplit(a, b);
      ConsSplit(va, vb);
      var next := stamp + CardCost(va[0].node);
      assert next + CostOf(va[1..]) == stamp + CostOf(va);
      CardsFollowAppend(a[1..], va[1..], b, vb, levels, make, offset + 1, next);
    }
  }

  /** The cards added by one step: what `run` has beyond `st`. */
  function Added(st: CardRun, run: CardRun): seq<LegacyCard>
    requires |st.cards| <= |run.cards|
  {
    run.cards[|st.cards|..]
  }

  lemma {:induction false} AddedChain(a: CardRun, b: CardRun, c: CardRun)
    requires |a.cards| <= |b.cards| <= |c.cards|
    requires b.cards[..|a.cards|] == a.cards && c.cards[..|b.cards|] == b.cards
    ensures Added(a, c) == Added(a, b) + Added(b, c)
  {
  }

  /**
   * Converting `forest` at the depth of `prefix` adds one card per visit of
   * the walk of `forest`, made by `Maker`, and advances the clock by the
   * walk's cost.
   */
  predicate ConvertsAsWalk(ctx: Ctx, data: seq<Node>, forest: seq<Node>, prefix: Path, start: nat, parentName: string, st: CardRun)
  {
    var r := ConvertFrom(ctx, forest, parentName, Depth(|prefix|, false), st);
    var walk := WalkFrom(forest, prefix, start, |ctx.levels|);
    CardsFollow(Added(st, r), walk, ctx.levels, Maker(ctx, data), |st.cards|, st.stamp) && r.stamp == st.stamp + CostOf(walk)
  }

  /**
   * At a whole depth the cards made are those of the depth-bounded preorder
   * walk of the same units: one per unit above the template's last level, in
   * preorder, numbered in the order they were pushed, each under the name of
   * the unit above it and with the ids the clock gives it in turn.
   */
  lemma {:induction false} ConvertFollowsWalk(ctx: Ctx, data: seq<Node>, forest: seq<Node>, prefix: Path, start: nat, parentName: string, st: CardRun)
    requires ChildrenAt(data, prefix).Some? && start <= |ChildrenAt(data, prefix).value|
    requires forest == ChildrenAt(data, prefix).value[start..]
    requires parentName == NameAt(data, prefix)
    ensures ConvertsAsWalk(ctx, data, forest, prefix, start, parentName, st)
    decreases forest
  {
    var d := Depth(|prefix|, false);
    var r := ConvertFrom(ctx, forest, parentName, d, st);
    var cs := ChildrenAt(data, prefix).value;
    if forest == [] {
      assert Added(st, r) == [];
    } else if |prefix| >= |ctx.levels| {
      assert forest[1..] == cs[start + 1..];
      ConvertFollowsWalk(ctx, data, forest[1..], prefix, start + 1, parentName, st);
      assert r == ConvertFrom(ctx, forest[1..], parentName, d, st);
    } else {
      var u := forest[0];
      var level := ctx.levels[|prefix|];
      assert LevelAt(ctx.levels, d) == Some(level);
      var here := prefix + [start];
      WalkHead(data, forest, prefix, start, |ctx.levels|);
      var kids := WalkFrom(u.subcategories, here, 0, |ctx.levels|);
      var rest := WalkFrom(forest[1..], prefix, start + 1, |ctx.levels|);
      var v := Visit(here, u, |prefix|);
      var st1 := ConvertHead(ctx, data, v, parentName, st);
      var st2;
      if BelowLast(ctx.levels, d) {
        st2 := ConvertFrom(ctx, u.subcategories, u.name, Depth(|here|, false), st1);
        assert |here| == |prefix| + 1;
        ConvertFollowsWalk(ctx, data, u.subcategories, here, 0, u.name, st1);
      } else {
        st2 := st1;
        assert kids == [];
        assert Added(st1, st2) == [];
      }
      assert CardsFollow(Added(st1, st2), kids, ctx.levels, Maker(ctx, data), |st1.cards|, st1.stamp) && st2.stamp == st1.stamp + CostOf(kids);
      assert r == ConvertFrom(ctx, forest[1..], parentName, d, st2);
      ConvertFollowsWalk(ctx, data, forest[1..], prefix, start + 1, parentName, st2);
      assert CardsFollow(Added(st2, r), rest, ctx.levels, Maker(ctx, data), |st2.cards|, st2.stamp) && r.stamp == st2.stamp + CostOf(rest);
      ComposeRuns(st, st1, st2, r, [v], kids, rest, ctx.levels, Maker(ctx, data));
    }
  }

  /**
   * Above the last level, the walk of a forest from its `start`-th child on is
   * the first unit's visit, the walk below it, and the walk of the units after.
   */
  lemma {:induction false} WalkHead(data: seq<Node>, forest: seq<Node>, prefix: Path, start: nat, maxDepth: nat)
    requires ChildrenAt(data, prefix).Some? && start <= |ChildrenAt(data, prefix).value|
    requires forest == ChildrenAt(data, prefix).value[start..] && forest != [] && |prefix| < maxDepth
    ensures var here := prefix + [start];
      GetByPath(data, here) == Some(forest[0])
      && ChildrenAt(data, here) == Some(forest[0].subcategories) && forest[0].subcategories[0..] == forest[0].subcategories
      && NameAt(data, here) == forest[0].name
      && ParentPath(Visit(here, forest[0], |prefix|)) == prefix
      && forest[1..] == ChildrenAt(data, prefix).value[start + 1..]
      && WalkFrom(forest, prefix, start, maxDepth)
        == [Visit(here, forest[0], |prefix|)] + WalkFrom(forest[0].subcategories, here, 0, maxDepth) + WalkFrom(forest[1..], prefix, start + 1, maxDepth)
  {
    GetByPathExtend(data, prefix, start);
  }

  /** The card of a unit above the last level, under the name of the unit above it. */
  lemma {:induction false} ConvertHead(ctx: Ctx, data: seq<Node>, v: Visit, parentName: string, st: CardRun) returns (st1: CardRun)
    requires v.depth < |ctx.levels| && parentName == NameAt(data, ParentPath(v))
    ensures st1 == AddLegacyCard(st, ctx, v.node, parentName, ctx.levels[v.depth])
    ensures |st.cards| <= |st1.cards| && st1.cards[..|st.cards|] == st.cards
    ensures CardsFollow(Added(st, st1), [v], ctx.levels, Maker(ctx, data), |st.cards|, st.stamp) && st1.stamp == st.stamp + CostOf([v])
  {
    st1 := AddLegacyCard(st, ctx, v.node, parentName, ctx.levels[v.depth]);
    assert Added(st, st1) == [st1.cards[|st.cards|]];
    assert Added(st, st1)[1..] == [] && [v][1..] == [];
  }

  /** Three runs in a row, each following its visits, follow the visits together. */
  lemma {:induction false} ComposeRuns(st: CardRun, st1: CardRun, st2: CardRun, r: CardRun, va: seq<Visit>, vb: seq<Visit>, vc: seq<Visit>, levels: seq<Level>, make: (Visit, Level, nat, nat) -> LegacyCard)
    requires |st.cards| <= |st1.cards| <= |st2.cards| <= |r.cards|
    requires st1.cards[..|st.cards|] == st.cards && st2.cards[..|st1.cards|] == st1.cards && r.cards[..|st2.cards|] == st2.cards
    requires CardsFollow(Added(st, st1), va, levels, make, |st.cards|, st.stamp) && st1.stamp == st.stamp + CostOf(va)
    requires CardsFollow(Added(st1, st2), vb, levels, make, |st1.cards|, st1.stamp) && st2.stamp == st1.stamp + CostOf(vb)
    requires CardsFollow(Added(st2, r), vc, levels, make, |st2.cards|, st2.stamp) && r.stamp == st2.stamp + CostOf(vc)
    ensures CardsFollow(Added(st, r), va + vb + vc, levels, make, |st.cards|, st.stamp)
    ensures r.stamp == st.stamp + CostOf(va + vb + vc)
  {
    JoinRuns(st, st1, st2, va, vb, levels, make);
    PrefixTrans(st.cards, st1.cards, st2.cards);
    JoinRuns(st, st2, r, va + vb, vc, levels, make);
  }

  /** Two runs in a row, each following its visits, follow the visits together. */
  lemma {:induction false} JoinRuns(st: CardRun, st1: CardRun, st2: CardRun, va: seq<Visit>, vb: seq<Visit>, levels: seq<Level>, make: (Visit, Level, nat, nat) -> LegacyCard)
    requires |st.cards| <= |st1.cards| <= |st2.cards|
    requires st1.cards[..|st.cards|] == st.cards && st2.cards[..|st1.cards|] == st1.cards
    requires CardsFollow(Added(st, st1), va, levels, make, |st.cards|, st.stamp) && st1.stamp == st.stamp + CostOf(va)
    requires CardsFollow(Added(st1, st2), vb, levels, make, |st1.cards|, st1.stamp) && st2.stamp == st1.stamp + CostOf(vb)
    ensures CardsFollow(Added(st, st2), va + vb, levels, make, |st.cards|, st.stamp)
    ensures st2.stamp == st.stamp + CostOf(va + vb)
  {
    AddedChain(st, st1, st2);
    assert |st.cards| + |Added(st, st1)| == |st1.cards|;
    CardsFollowAppend(Added(st, st1), va, Added(st1, st2), vb, levels, make, |st.cards|, st.stamp);
    CostOfAppend(va, vb);
  }

  // Board labels

  /** Every tag of the unit and its descendants, in preorder, repeats included. */
  function AllTags(u: Node): seq<string>
    decreases u
  {
    u.tags + AllTagsOf(u.subcategories)
  }

  function AllTagsOf(units: seq<Node>): seq<string>
    decreases units
  {
    if units == [] then [] else AllTagsOf(units[..|units| - 1]) + AllTags(units[|units| - 1])
  }

  /** The `Set` of tags in insertion order: each tag once, where it first occurs. */
  function Distinct(tags: seq<string>): (r: seq<string>)
    ensures forall t :: t in r <==> t in tags
    ensures forall i, j :: 0 <= i < j < |r| ==> r[i] != r[j]
  {
    if tags == [] then []
    else
      var before := Distinct(tags[..|tags| - 1]);
      var t := tags[|tags| - 1];
      assert tags == tags[..|tags| - 1] + [t];
      if t in before then before else before + [t]
  }

  /** No earlier tag equals the one at position `j`. */
  predicate FirstAt(tags: seq<string>, j: nat)
    requires j < |tags|
  {
    forall i :: 0 <= i < j ==> tags[i] != tags[j]
  }

  /** The positions where a tag occurs for the first time, in increasing order. */
  function FirstOccurrences(tags: seq<string>): (idx: seq<nat>)
    ensures forall k :: 0 <= k < |idx| ==> idx[k] < |tags|
    ensures forall a, b :: 0 <= a < b < |idx| ==> idx[a] < idx[b]
    ensures forall j :: 0 <= j < |tags| ==> (j in idx <==> FirstAt(tags, j))
  {
    if tags == [] then []
    else
      var last := |tags| - 1;
      var init := tags[..last];
      var before := FirstOccurrences(init);
      assert forall j :: 0 <= j < last ==> (FirstAt(init, j) <==> FirstAt(tags, j));
      before + (if FirstAt(tags, last) then [last] else [])
  }

  /**
   * The `Set`'s insertion order: the distinct tags are the tags at their
   * first occurrences, in the order they occur.
   */
  lemma {:induction false} DistinctExact(tags: seq<string>)
    ensures var r := Distinct(tags);
      var idx := FirstOccurrences(tags);
      |r| == |idx| && forall k :: 0 <= k < |r| ==> r[k] == tags[idx[k]]
  {
    if tags != [] {
      var last := |tags| - 1;
      var init := tags[..last];
      var t := tags[last];
      DistinctExact(init);
      var before := Distinct(init);
      var idxBefore := FirstOccurrences(init);
      assert tags == init + [t];
      assert Distinct(tags) == if t in before then before else before + [t];
      assert FirstAt(tags, last) <==> t !in init;
      assert FirstOccurrences(tags) == idxBefore + (if t !in init then [last] else []);
      forall k | 0 <= k < |idxBefore|
        ensures before[k] == tags[idxBefore[k]]
      {
        assert init[idxBefore[k]] == tags[idxBefore[k]];
      }
    }
  }

  /** `allTags.forEach(tag => board.labels.push({ id: generateId('label'), name: tag }))`. */
  function TagLabels(tags: seq<string>, stamp: nat): (r: seq<Label>)
    ensures |r| == |tags|
    ensures forall i :: 0 <= i < |tags| ==> r[i] == Label(Mint("label", stamp + i), tags[i])
  {
    seq(|tags|, i requires 0 <= i < |tags| => Label(Mint("label", stamp + i), tags[i]))
  }

  // exportUnitToBoard

  /**
   * `exportUnitToBoard` with the depth of the unit given in half-steps: the
   * board takes the first id, the tag labels the next ones, then the cards
   * are made for the unit's children one level deeper. An empty description
   * reads `level.singularName`, which throws when the level is missing.
   */
  function ExportUnitAt(flow: Flow, template: Option<Template>, q: Path, d: Depth, execs: map<string, Completion>, stamp: nat, confirmed: bool): Outcome
  {
    var found := GetByPath(flow.data, q);
    if found.None? || template.None? then NoUnit
    else if !confirmed then Cancelled
    else UnitBoard(flow, found.value, template.value.levels, d, execs, stamp)
  }

  /** Every distinct tag of the unit's subtree, in the order first met. */
  function BoardTags(unit: Node): seq<string>
  {
    Distinct(AllTags(unit))
  }

  /** The unit board's labels: the three priority labels, then one per distinct tag. */
  function UnitLabels(unit: Node, stamp: nat): seq<Label>
  {
    PriorityLabels + TagLabels(BoardTags(unit), stamp + 1)
  }

  /** The cards of the unit board, made after the board and label ids. */
  function UnitCards(flow: Flow, unit: Node, levels: seq<Level>, d: Depth, execs: map<string, Completion>, stamp: nat): CardRun
  {
    ConvertFrom(Ctx(levels, UnitLabels(unit, stamp), execs, flow.id), unit.subcategories, unit.name, Depth(d.whole + 1, d.half), CardRun([], stamp + 1 + |BoardTags(unit)|))
  }

  /** The board built once the unit, the template and the user's consent are there. */
  function UnitBoard(flow: Flow, unit: Node, levels: seq<Level>, d: Depth, execs: map<string, Completion>, stamp: nat): Outcome
  {
    var level := LevelAt(levels, d);
    if unit.description == "" && level.None? then Failed("Cannot read properties of undefined (reading 'singularName')")
    else
      var description := if unit.description != "" then unit.description else "Exported from " + level.value.singularName;
      var run := UnitCards(flow, unit, levels, d, execs, stamp);
      Exported(LegacyBoard(Mint("board", stamp), flow.name + ": " + unit.name, description, BoardColumns, run.cards, UnitLabels(unit, stamp)), run.stamp)
  }

  /** As written: the depth is half the number of dots in the unit's path string. */
  function ExportUnitToBoardAsWritten(flow: Flow, template: Option<Template>, q: Path, execs: map<string, Completion>, stamp: nat, confirmed: bool): Outcome
  {
    if q == [] then NoUnit
    else ExportUnitAt(flow, template, q, HalfOf(CountDots(UnitPathString(q))), execs, stamp, confirmed)
  }

  /**
   * As written, the export never makes a card: the depth is never a whole
   * number, so no level is ever found. A unit without a description makes
   * it throw instead.
   */
  lemma {:induction false} AsWrittenMakesNoCards(flow: Flow, template: Option<Template>, q: Path, execs: map<string, Completion>, stamp: nat)
    requires GetByPath(flow.data, q).Some? && template.Some?
    ensures var r := ExportUnitToBoardAsWritten(flow, template, q, execs, stamp, true);
      (GetByPath(flow.data, q).value.description == "" ==> r.Failed?)
      && (GetByPath(flow.data, q).value.description != "" ==> r.Exported? && r.board.cards == [])
  {
    UnitPathDots(q);
    var unit := GetByPath(flow.data, q).value;
    var levels := template.value.levels;
    var d := HalfOf(CountDots(UnitPathString(q)));
    assert d == Depth(|q| - 1, true);
    ConvertFromHalf(Ctx(levels, UnitLabels(unit, stamp), execs, flow.id), unit.subcategories, unit.name, Depth(|q|, true), CardRun([], stamp + 1 + |BoardTags(unit)|));
  }

  /** A concrete instance: a root unit with a description and one child, under a one-level template, gets a board with no card. */
  lemma {:induction false} AsWrittenExample()
    ensures var child := Node("unit-2", "Child", "", "", [], 0, false, Footer([], [], [], []), []);
      var root := Node("unit-1", "Root", "About", "", [], 0, false, Footer([], [], [], []), [child]);
      var flow := Flow("flow-1", "Plan", "t", "", "", Template([]), [root]);
      var r := ExportUnitToBoardAsWritten(flow, Some(Template([Level("Step", false), Level("Task", false)])), [0], map[], 0, true);
      r.Exported? && r.board.cards == []
  {
    var child := Node("unit-2", "Child", "", "", [], 0, false, Footer([], [], [], []), []);
    var root := Node("unit-1", "Root", "About", "", [], 0, false, Footer([], [], [], []), [child]);
    var flow := Flow("flow-1", "Plan", "t", "", "", Template([]), [root]);
    AsWrittenMakesNoCards(flow, Some(Template([Level("Step", false), Level("Task", false)])), [0], map[], 0);
  }

  /** Corrected: the depth is the unit's index-path length less one. */
  function ExportUnitToBoard(flow: Flow, template: Option<Template>, q: Path, execs: map<string, Completion>, stamp: nat, confirmed: bool): Outcome
  {
    if q == [] then NoUnit
    else ExportUnitAt(flow, template, q, Depth(|q| - 1, false), execs, stamp, confirmed)
  }

  /** The corrected export fails only for a unit without description below the template's last level. */
  lemma {:induction false} ExportUnitToBoardFails(flow: Flow, template: Option<Template>, q: Path, execs: map<string, Completion>, stamp: nat)
    requires GetByPath(flow.data, q).Some? && template.Some?
    ensures var r := ExportUnitToBoard(flow, template, q, execs, stamp, true);
      (r.Failed? <==> GetByPath(flow.data, q).value.description == "" && |q| > |template.value.levels|)
      && (r.Exported? || r.Failed?)
  {
    assert q != [];
    var d := Depth(|q| - 1, false);
    var unit := GetByPath(flow.data, q).value;
    assert ExportUnitToBoard(flow, template, q, execs, stamp, true) == UnitBoard(flow, unit, template.value.levels, d, execs, stamp);
    assert LevelAt(template.value.levels, d).None? <==> |q| > |template.value.levels|;
  }

  /**
   * The corrected board has a card for each descendant of the unit above the
   * template's last level, in preorder, numbered from 0, each with its
   * title, its description under its parent's name, its column, labels,
   * link attachments and comments, and ids drawn in turn after the board's
   * and the labels'; its labels are the three priority labels followed by
   * one per distinct tag of the unit's subtree.
   */
  lemma {:induction false} ExportUnitToBoardSpec(flow: Flow, template: Option<Template>, q: Path, execs: map<string, Completion>, stamp: nat)
    requires GetByPath(flow.data, q).Some? && template.Some?
    ensures UnitBoardIs(ExportUnitToBoard(flow, template, q, execs, stamp, true), flow, GetByPath(flow.data, q).value, template.value.levels, q, execs, stamp)
  {
    var unit := GetByPath(flow.data, q).value;
    var levels := template.value.levels;
    assert q != [];
    var r := ExportUnitToBoard(flow, template, q, execs, stamp, true);
    assert r == UnitBoard(flow, unit, levels, Depth(|q| - 1, false), execs, stamp);
    UnitBoardSpec(flow, unit, levels, q, execs, stamp, r);
  }

  /**
   * An exported unit board has the board id, the flow's and unit's names,
   * the unit's description or else its level's, the three priority labels
   * followed by one per distinct tag of the unit's subtree, and exactly the
   * cards of the walk of the unit's subtree, whose ids follow the labels'.
   */
  predicate UnitBoardIs(b: Outcome, flow: Flow, unit: Node, levels: seq<Level>, q: Path, execs: map<string, Completion>, stamp: nat)
  {
    b.Exported? ==>
      b.board.id == Mint("board", stamp)
      && b.board.name == flow.name + ": " + unit.name
      && (unit.description != "" ==> b.board.description == unit.description)
      && (unit.description == "" ==> 0 < |q| <= |levels| && b.board.description == "Exported from " + levels[|q| - 1].singularName)
      && b.board.labels == PriorityLabels + TagLabels(BoardTags(unit), stamp + 1)
      && (var walk := WalkFrom(unit.subcategories, q, 0, |levels|);
          var base := stamp + 1 + |BoardTags(unit)|;
          UnitCardsExactly(b.board.cards, walk, levels, Ctx(levels, b.board.labels, execs, flow.id), flow.data, base)
          && b.stamp == base + CostOf(walk))
  }

  /** The board `ExportUnitToBoardSpec` describes, for the unit found at `q`. */
  lemma {:induction false} UnitBoardSpec(flow: Flow, unit: Node, levels: seq<Level>, q: Path, execs: map<string, Completion>, stamp: nat, b: Outcome)
    requires q != [] && GetByPath(flow.data, q) == Some(unit)
    requires b == UnitBoard(flow, unit, levels, Depth(|q| - 1, false), execs, stamp)
    ensures UnitBoardIs(b, flow, unit, levels, q, execs, stamp)
  {
    if b.Exported? {
      var run := UnitCards(flow, unit, levels, Depth(|q| - 1, false), execs, stamp);
      assert b.board.labels == UnitLabels(unit, stamp) && b.board.cards == run.cards && b.stamp == run.stamp;
      var ctx := Ctx(levels, UnitLabels(unit, stamp), execs, flow.id);
      var base := stamp + 1 + |BoardTags(unit)|;
      UnitCardsAt(flow, unit, levels, q, execs, stamp);
      UnitBoardFollowsWalk(flow.data, unit, ctx, q, base);
      UnitCardsExact(run.cards, WalkFrom(unit.subcategories, q, 0, |levels|), levels, ctx, flow.data, base);
    }
  }

  /**
   * The cards are, one by one, the cards of the walk's units, numbered from
   * 0, each under its parent's name, with ids drawn in turn from `stamp`.
   */
  predicate UnitCardsExactly(cards: seq<LegacyCard>, walk: seq<Visit>, levels: seq<Level>, ctx: Ctx, data: seq<Node>, stamp: nat)
  {
    |cards| == |walk|
    && forall i :: 0 <= i < |walk| ==> IsUnitCard(cards[i], walk[i], levels, ctx, data, i, stamp + CostOf(walk[..i]))
  }

  /** The card made for the visited unit at its level, under its parent's name. */
  predicate IsUnitCard(card: LegacyCard, v: Visit, levels: seq<Level>, ctx: Ctx, data: seq<Node>, order: nat, stamp: nat)
  {
    v.depth < |levels| && card == LegacyCardOf(v.node, levels[v.depth], ctx, NameAt(data, ParentPath(v)), order, stamp)
  }

  /** Cards following a walk from position 0 are exactly the cards of the walk's units. */
  lemma {:induction false} UnitCardsExact(cards: seq<LegacyCard>, walk: seq<Visit>, levels: seq<Level>, ctx: Ctx, data: seq<Node>, stamp: nat)
    requires ctx.levels == levels && CardsFollow(cards, walk, levels, Maker(ctx, data), 0, stamp)
    ensures UnitCardsExactly(cards, walk, levels, ctx, data, stamp)
  {
    forall i | 0 <= i < |walk|
      ensures IsUnitCard(cards[i], walk[i], levels, ctx, data, i, stamp + CostOf(walk[..i]))
    {
      UnitCardAt(cards, walk, ctx, data, stamp, i);
    }
  }

  lemma {:induction false} UnitCardAt(cards: seq<LegacyCard>, walk: seq<Visit>, ctx: Ctx, data: seq<Node>, stamp: nat, i: nat)
    requires CardsFollow(cards, walk, ctx.levels, Maker(ctx, data), 0, stamp) && i < |walk|
    ensures IsUnitCard(cards[i], walk[i], ctx.levels, ctx, data, i, stamp + CostOf(walk[..i]))
  {
    CardsFollowAt(cards, walk, ctx.levels, Maker(ctx, data), 0, stamp, i);
    MakerApply(ctx, data, walk[i], ctx.levels[walk[i].depth], i, stamp + CostOf(walk[..i]));
  }

  lemma {:induction false} MakerApply(ctx: Ctx, data: seq<Node>, v: Visit, level: Level, order: nat, stamp: nat)
    ensures Maker(ctx, data)(v, level, order, stamp) == LegacyCardOf(v.node, level, ctx, NameAt(data, ParentPath(v)), order, stamp)
  {
  }

  /** The cards the corrected export builds for a unit's children follow the walk of its subtree. */
  lemma {:induction false} UnitBoardFollowsWalk(data: seq<Node>, unit: Node, ctx: Ctx, q: Path, base: nat)
    requires GetByPath(data, q) == Some(unit)
    ensures var conv := ConvertFrom(ctx, unit.subcategories, unit.name, Depth(|q|, false), CardRun([], base));
      var walk := WalkFrom(unit.subcategories, q, 0, |ctx.levels|);
      CardsFollow(conv.cards, walk, ctx.levels, Maker(ctx, data), 0, base) && conv.stamp == base + CostOf(walk)
  {
    var st := CardRun([], base);
    assert st.stamp == base && st.cards == [];
    var conv := ConvertFrom(ctx, unit.subcategories, unit.name, Depth(|q|, false), st);
    assert ChildrenAt(data, q) == Some(unit.subcategories) && unit.subcategories[0..] == unit.subcategories;
    assert NameAt(data, q) == unit.name;
    ConvertFollowsWalk(ctx, data, unit.subcategories, q, 0, unit.name, st);
    assert Added(st, conv) == conv.cards;
  }

  /** The unit board's converter starts one level below the unit, with the board's labels and the ids after the labels'. */
  lemma {:induction false} UnitCardsAt(flow: Flow, unit: Node, levels: seq<Level>, q: Path, execs: map<string, Completion>, stamp: nat)
    requires q != []
    ensures UnitCards(flow, unit, levels, Depth(|q| - 1, false), execs, stamp)
      == ConvertFrom(Ctx(levels, UnitLabels(unit, stamp), execs, flow.id), unit.subcategories, unit.name, Depth(|q|, false), CardRun([], stamp + 1 + |BoardTags(unit)|))
  {
  }

  /** Every label id on a card of an exported board is the id of one of the board's labels. */
  lemma {:induction false} CardLabelsExist(cards: seq<LegacyCard>, vs: seq<Visit>, ctx: Ctx, data: seq<Node>, offset: nat, stamp: nat, i: nat, id: string)
    requires CardsFollow(cards, vs, ctx.levels, Maker(ctx, data), offset, stamp) && i < |cards| && id in cards[i].labels
    ensures exists l :: l in ctx.labels && l.id == id && l.name in vs[i].node.tags
  {
    CardsFollowAt(cards, vs, ctx.levels, Maker(ctx, data), offset, stamp, i);
    var v := vs[i];
    LegacyCardContents(v.node, ctx.levels[v.depth], ctx, NameAt(data, ParentPath(v)), offset + i, stamp + CostOf(vs[..i]));
  }

  // exportTagToBoard

  /** `parentChain.join('  ')`. */
  function Join(names: seq<string>, sep: string): string
  {
    if names == [] then ""
    else if |names| == 1 then names[0]
    else Join(names[..|names| - 1], sep) + sep + names[|names| - 1]
  }

  /** `card.description` once the Path line is put in front for a non-empty chain of ancestors. */
  function WithPath(chain: seq<string>, description: string): string
  {
    if |chain| > 0 then "**Path:** " + Join(chain, "  ") + "\n\n" + description else description
  }

  /** The names of the units on the way to `path`, outermost first. */
  function NamesTo(data: seq<Node>, path: Path): seq<string>
  {
    if path == [] then [] else NamesTo(data, path[..|path| - 1]) + [NameAt(data, path)]
  }

  /**
   * What `collectTaggedUnits` makes of the tagged unit `u` at a level, below
   * the ancestors `chain`, at position `order` with the clock at `stamp`:
   * the `card-` id, the Path line, the tag label, and no attachment or comment.
   */
  predicate IsTagCard(card: LegacyCard, u: Node, level: Level, ctx: Ctx, chain: seq<string>, order: nat, stamp: nat)
  {
    card.id == Mint("card", stamp)
    && card.title == LegacyTitle(u, level)
    && card.description == WithPath(chain, u.description)
    && card.columnId == ColumnFor(ctx, u)
    && card.order == order
    && card.labels == ["label-tag"]
    && card.attachments == [] && card.comments == []
  }

  /** A card made for a tagged unit of the flow's `data`, at position `order` with the clock at `stamp`. */
  predicate TagCardFor(card: LegacyCard, v: Visit, ctx: Ctx, data: seq<Node>, order: nat, stamp: nat)
  {
    v.depth < |ctx.levels|
    && IsTagCard(card, v.node, ctx.levels[v.depth], ctx, NamesTo(data, ParentPath(v)), order, stamp)
  }

  /** The cards are made, one each and in order, for the visits, numbered from `offset`, one id each. */
  predicate TagCardsFollow(cards: seq<LegacyCard>, vs: seq<Visit>, ctx: Ctx, data: seq<Node>, offset: nat, stamp: nat)
  {
    |cards| == |vs| && forall i :: 0 <= i < |cards| ==> TagCardFor(cards[i], vs[i], ctx, data, offset + i, stamp + i)
  }

  lemma {:induction false} TagCardsFollowAppend(a: seq<LegacyCard>, va: seq<Visit>, b: seq<LegacyCard>, vb: seq<Visit>, ctx: Ctx, data: seq<Node>, offset: nat, stamp: nat)
    requires TagCardsFollow(a, va, ctx, data, offset, stamp) && TagCardsFollow(b, vb, ctx, data, offset + |a|, stamp + |a|)
    ensures TagCardsFollow(a + b, va + vb, ctx, data, offset, stamp)
  {
    forall i | 0 <= i < |a + b|
      ensures TagCardFor((a + b)[i], (va + vb)[i], ctx, data, offset + i, stamp + i)
    {
      if i >= |a| {
        assert (a + b)[i] == b[i - |a|] && (va + vb)[i] == vb[i - |a|];
      } else {
        assert (a + b)[i] == a[i] && (va + vb)[i] == va[i];
      }
    }
  }

  /** The card for a tagged unit: the next `card-` id, its title, its ancestors' names as a path, and the tag label. */
  function AddTagCard(st: CardRun, ctx: Ctx, u: Node, chain: seq<string>, level: Level): (r: CardRun)
    ensures |r.cards| == |st.cards| + 1 && r.cards[..|st.cards|] == st.cards
    ensures IsTagCard(r.cards[|st.cards|], u, level, ctx, chain, |st.cards|, st.stamp)
    ensures r.stamp == st.stamp + 1
  {
    var card := LegacyCard(
      Mint("card", st.stamp),
      LegacyTitle(u, level),
      WithPath(chain, u.description),
      ColumnFor(ctx, u),
      |st.cards|,
      ["label-tag"],
      [],
      []);
    CardRun(st.cards + [card], st.stamp + 1)
  }

  /** `collectTaggedUnits(units, depth, parentChain)`. */
  function CollectTagged(ctx: Ctx, tag: string, forest: seq<Node>, depth: nat, chain: seq<string>, st: CardRun): (r: CardRun)
    ensures |st.cards| <= |r.cards| && r.cards[..|st.cards|] == st.cards
    decreases forest
  {
    if forest == [] || depth >= |ctx.levels| then st
    else
      var u := forest[0];
      var st1 := if NodeHasTag(u, tag) then AddTagCard(st, ctx, u, chain, ctx.levels[depth]) else st;
      var st2 := CollectTagged(ctx, tag, u.subcategories, depth + 1, chain + [u.name], st1);
      CollectTagged(ctx, tag, forest[1..], depth, chain, st2)
  }

  /** The visits whose unit carries `tag`, in walk order. */
  function Tagged(vs: seq<Visit>, tag: string): seq<Visit>
  {
    Select(vs, (n: Node) => NodeHasTag(n, tag))
  }

  lemma {:induction false} TaggedSplit(v: Visit, kids: seq<Visit>, rest: seq<Visit>, tag: string)
    ensures Tagged([v] + kids + rest, tag) == Tagged([v], tag) + Tagged(kids, tag) + Tagged(rest, tag)
    ensures Tagged([v], tag) == if NodeHasTag(v.node, tag) then [v] else []
  {
    var keep := (n: Node) => NodeHasTag(n, tag);
    SelectAppend([v] + kids, rest, keep);
    SelectAppend([v], kids, keep);
    assert [v][1..] == [];
  }

  /** The card a tagged unit gets, and none for an untagged one. */
  lemma {:induction false} TagHead(ctx: Ctx, data: seq<Node>, tag: string, u: Node, chain: seq<string>, v: Visit, st: CardRun) returns (st1: CardRun)
    requires v.node == u && v.depth < |ctx.levels| && chain == NamesTo(data, ParentPath(v))
    ensures st1 == if NodeHasTag(u, tag) then AddTagCard(st, ctx, u, chain, ctx.levels[v.depth]) else st
    ensures |st.cards| <= |st1.cards| && st1.cards[..|st.cards|] == st.cards
    ensures var head := if NodeHasTag(u, tag) then [v] else [];
      TagCardsFollow(Added(st, st1), head, ctx, data, |st.cards|, st.stamp) && st1.stamp == st.stamp + |head|
  {
    if NodeHasTag(u, tag) {
      st1 := AddTagCard(st, ctx, u, chain, ctx.levels[v.depth]);
      assert Added(st, st1) == [st1.cards[|st.cards|]];
    } else {
      st1 := st;
      assert Added(st, st1) == [];
    }
  }

  /**
   * The cards are those of the tagged units of the depth-bounded walk, in
   * walk order, each under the names of the units above it and with one id
   * drawn in turn.
   */
  lemma {:induction false} CollectTaggedFollowsWalk(ctx: Ctx, data: seq<Node>, tag: string, forest: seq<Node>, prefix: Path, start: nat, chain: seq<string>, st: CardRun)
    requires ChildrenAt(data, prefix).Some? && start <= |ChildrenAt(data, prefix).value|
    requires forest == ChildrenAt(data, prefix).value[start..]
    requires chain == NamesTo(data, prefix)
    ensures var r := CollectTagged(ctx, tag, forest, |prefix|, chain, st);
      var tagged := Tagged(WalkFrom(forest, prefix, start, |ctx.levels|), tag);
      TagCardsFollow(Added(st, r), tagged, ctx, data, |st.cards|, st.stamp) && r.stamp == st.stamp + |tagged|
    decreases forest
  {
    var r := CollectTagged(ctx, tag, forest, |prefix|, chain, st);
    var cs := ChildrenAt(data, prefix).value;
    if forest == [] || |prefix| >= |ctx.levels| {
      assert Added(st, r) == [];
      assert WalkFrom(forest, prefix, start, |ctx.levels|) == [];
    } else {
      var u := forest[0];
      var here := prefix + [start];
      GetByPathExtend(data, prefix, start);
      assert GetByPath(data, here) == Some(u);
      assert ChildrenAt(data, here) == Some(u.subcategories) && u.subcategories[0..] == u.subcategories;
      assert NamesTo(data, here) == chain + [u.name] by {
        assert here[..|here| - 1] == prefix;
      }
      var v := Visit(here, u, |prefix|);
      assert ParentPath(v) == prefix;
      var kids := WalkFrom(u.subcategories, here, 0, |ctx.levels|);
      var rest := WalkFrom(forest[1..], prefix, start + 1, |ctx.levels|);
      assert WalkFrom(forest, prefix, start, |ctx.levels|) == [v] + kids + rest;
      TaggedSplit(v, kids, rest, tag);
      var st1 := TagHead(ctx, data, tag, u, chain, v, st);
      var st2 := CollectTagged(ctx, tag, u.subcategories, |prefix| + 1, chain + [u.name], st1);
      assert r == CollectTagged(ctx, tag, forest[1..], |prefix|, chain, st2);
      assert |here| == |prefix| + 1;
      CollectTaggedFollowsWalk(ctx, data, tag, u.subcategories, here, 0, chain + [u.name], st1);
      assert forest[1..] == cs[start + 1..];
      CollectTaggedFollowsWalk(ctx, data, tag, forest[1..], prefix, start + 1, chain, st2);
      ComposeTagRuns(st, st1, st2, r, Tagged([v], tag), Tagged(kids, tag), Tagged(rest, tag), ctx, data);
    }
  }

  lemma {:induction false} ComposeTagRuns(st: CardRun, st1: CardRun, st2: CardRun, r: CardRun, va: seq<Visit>, vb: seq<Visit>, vc: seq<Visit>, ctx: Ctx, data: seq<Node>)
    requires |st.cards| <= |st1.cards| <= |st2.cards| <= |r.cards|
    requires st1.cards[..|st.cards|] == st.cards && st2.cards[..|st1.cards|] == st1.cards && r.cards[..|st2.cards|] == st2.cards
    requires TagCardsFollow(Added(st, st1), va, ctx, data, |st.cards|, st.stamp) && st1.stamp == st.stamp + |va|
    requires TagCardsFollow(Added(st1, st2), vb, ctx, data, |st1.cards|, st1.stamp) && st2.stamp == st1.stamp + |vb|
    requires TagCardsFollow(Added(st2, r), vc, ctx, data, |st2.cards|, st2.stamp) && r.stamp == st2.stamp + |vc|
    ensures TagCardsFollow(Added(st, r), va + vb + vc, ctx, data, |st.cards|, st.stamp)
    ensures r.stamp == st.stamp + |va + vb + vc|
  {
    JoinTagRuns(st, st1, st2, va, vb, ctx, data);
    PrefixTrans(st.cards, st1.cards, st2.cards);
    JoinTagRuns(st, st2, r, va + vb, vc, ctx, data);
  }

  /** Two runs of tag cards in a row, each following its visits, follow the visits together. */
  lemma {:induction false} JoinTagRuns(st: CardRun, st1: CardRun, st2: CardRun, va: seq<Visit>, vb: seq<Visit>, ctx: Ctx, data: seq<Node>)
    requires |st.cards| <= |st1.cards| <= |st2.cards|
    requires st1.cards[..|st.cards|] == st.cards && st2.cards[..|st1.cards|] == st1.cards
    requires TagCardsFollow(Added(st, st1), va, ctx, data, |st.cards|, st.stamp) && st1.stamp == st.stamp + |va|
    requires TagCardsFollow(Added(st1, st2), vb, ctx, data, |st1.cards|, st1.stamp) && st2.stamp == st1.stamp + |vb|
    ensures TagCardsFollow(Added(st, st2), va + vb, ctx, data, |st.cards|, st.stamp)
    ensures st2.stamp == st.stamp + |va + vb|
  {
    AddedChain(st, st1, st2);
    assert |st.cards| + |Added(st, st1)| == |st1.cards| && st.stamp + |Added(st, st1)| == st1.stamp;
    TagCardsFollowAppend(Added(st, st1), va, Added(st1, st2), vb, ctx, data, |st.cards|, st.stamp);
  }

  /**
   * `exportTagToBoard(tag)`: the board takes the first id; one card per
   * tagged unit above the last level, in preorder; no board at all when no
   * unit carries the tag.
   */
  function ExportTagToBoard(flow: Flow, template: Option<Template>, tag: string, execs: map<string, Completion>, stamp: nat, confirmed: bool): Outcome
  {
    if template.None? then NoUnit
    else if !confirmed then Cancelled
    else
      var labels := [Label("label-tag", tag)];
      var ctx := Ctx(template.value.levels, labels, execs, flow.id);
      var run := CollectTagged(ctx, tag, flow.data, 0, [], CardRun([], stamp + 1));
      if run.cards == [] then NoCards
      else Exported(LegacyBoard(Mint("board", stamp), "#" + tag, "Tag-filtered board from " + flow.name, BoardColumns, run.cards, labels), run.stamp)
  }

  /**
   * The tag board has a card for exactly the tagged units of the flow above
   * the template's last level, in preorder, numbered from 0, each with its
   * title, its description under the Path of its ancestors' names, its
   * column, the tag label and one id drawn after the board's `board-` id;
   * with no such unit there is no board.
   */
  lemma {:induction false} ExportTagToBoardSpec(flow: Flow, template: Option<Template>, tag: string, execs: map<string, Completion>, stamp: nat)
    requires template.Some?
    ensures var r := ExportTagToBoard(flow, template, tag, execs, stamp, true);
      var tagged := Tagged(Walk(flow.data, |template.value.levels|), tag);
      (r.NoCards? <==> tagged == [])
      && (r.Exported? ==>
            r.board.id == Mint("board", stamp) && r.board.name == "#" + tag
            && r.board.labels == [Label("label-tag", tag)]
            && TagCardsFollow(r.board.cards, tagged, Ctx(template.value.levels, r.board.labels, execs, flow.id), flow.data, 0, stamp + 1)
            && r.stamp == stamp + 1 + |tagged|)
  {
    var labels := [Label("label-tag", tag)];
    var ctx := Ctx(template.value.levels, labels, execs, flow.id);
    var st := CardRun([], stamp + 1);
    assert flow.data[0..] == flow.data;
    CollectTaggedFollowsWalk(ctx, flow.data, tag, flow.data, [], 0, [], st);
    var run := CollectTagged(ctx, tag, flow.data, 0, [], st);
    assert Added(st, run) == run.cards;
  }
}
