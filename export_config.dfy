/**
 * The export configuration of export-to-board-module.js: the scope rule, the
 * default and bulk classification that pre-fill the dynamic-list selectors,
 * and `handleExportSubmit`'s validation and gathering of the modal's controls.
 */
module ExportConfig {
  import opened Wrappers
  import opened Text
  import opened Workflow
  import opened Board

  datatype Scope = Full | Partial | TagScope

  /** The `config` object `handleExportSubmit` hands to `executeWorkflowExport`. */
  datatype Config = Config(
    scope: Scope,
    boardName: string,
    boardDescription: string,
    exportReference: bool,
    referenceLevel: int,
    exportDynamicList: bool,
    selectedNodes: set<string>,
    tagFilter: string,
    dynamicListTypes: map<string, NodeType>,
    boardColumnAssignments: map<string, string>)

  /** One row of the dynamic-list tree: a `.dynamic-type-selector` and the `.board-column-selector` beside it. */
  datatype TypeSelector = TypeSelector(nodeId: string, value: NodeType, column: string)

  /** The modal's controls when "Create board" is pressed; an empty or missing text control reads as "". */
  datatype ExportForm = ExportForm(
    scope: Option<Scope>,
    boardName: string,
    boardDescription: string,
    exportReference: bool,
    referenceLevel: int,
    exportDynamicList: bool,
    checkedNodeIds: seq<string>,
    tagSelect: string,
    selectors: seq<TypeSelector>)

  datatype ConfigError = MissingBoardName | NoSectionSelected | NoTagSelected

  /** The scope rule of `collectNodes`: a unit is exported by its own id or its own tags, never through relatives. */
  predicate InScope(node: Node, config: Config)
  {
    match config.scope
    case Full => true
    case Partial => node.id in config.selectedNodes
    case TagScope => NodeHasTag(node, config.tagFilter)
  }

  /** `shouldNodeBeExported`: the same rule read off the modal's current controls. */
  predicate ShouldNodeBeExported(node: Node, scope: Option<Scope>, checked: set<string>, tag: string)
  {
    match scope
    case None => true
    case Some(Full) => true
    case Some(Partial) => node.id in checked
    case Some(TagScope) => tag != "" && NodeHasTag(node, tag)
  }

  /** The type a selector starts with: units outside the export are skipped, the two top levels connect, deeper ones are tasks. */
  function DefaultType(willBeExported: bool, depth: nat): (t: NodeType)
    ensures t == Skip <==> !willBeExported
    ensures t == Connection <==> willBeExported && depth <= 1
    ensures t == Task <==> willBeExported && depth >= 2
  {
    if !willBeExported then Skip else if depth <= 1 then Connection else Task
  }

  /** `getSmartColumnDefault`: finished units go to `done`, graded ones to `in-progress`, the rest to no column. */
  function DefaultColumn(willBeExported: bool, node: Node): (key: string)
    ensures !willBeExported ==> key == ""
    ensures willBeExported && node.completed ==> key == "done"
    ensures willBeExported && !node.completed && node.grade > 0 ==> key == "in-progress"
    ensures key == "" <==> !willBeExported || (!node.completed && node.grade <= 0)
  {
    if !willBeExported then ""
    else if node.completed then "done"
    else if node.grade > 0 then "in-progress"
    else ""
  }

  /**
   * `buildDynamicListTree`: one selector per unit in preorder; the roots always,
   * children only while `depth < levels.length - 1`.
   */
  function BuildSelectors(data: seq<Node>, levelCount: nat, scope: Option<Scope>, checked: set<string>, tag: string): (r: seq<TypeSelector>)
    ensures |r| == |Walk(data, if levelCount == 0 then 1 else levelCount)|
    ensures forall k :: 0 <= k < |r| ==>
      var w := Walk(data, if levelCount == 0 then 1 else levelCount)[k];
      var exported := ShouldNodeBeExported(w.node, scope, checked, tag);
      r[k] == TypeSelector(w.node.id, DefaultType(exported, w.depth), DefaultColumn(exported, w.node))
  {
    var walk := Walk(data, if levelCount == 0 then 1 else levelCount);
    seq(|walk|, k requires 0 <= k < |walk| =>
      var exported := ShouldNodeBeExported(walk[k].node, scope, checked, tag);
      TypeSelector(walk[k].node.id, DefaultType(exported, walk[k].depth), DefaultColumn(exported, walk[k].node)))
  }

  /** A selector built by default never offers a column to a unit it skips. */
  lemma SkippedSelectorsHaveNoColumn(data: seq<Node>, levelCount: nat, scope: Option<Scope>, checked: set<string>, tag: string, k: nat)
    requires k < |BuildSelectors(data, levelCount, scope, checked, tag)|
    ensures var s := BuildSelectors(data, levelCount, scope, checked, tag)[k];
      s.value == Skip ==> s.column == ""
  {
    var walk := Walk(data, if levelCount == 0 then 1 else levelCount);
    var exported := ShouldNodeBeExported(walk[k].node, scope, checked, tag);
    assert BuildSelectors(data, levelCount, scope, checked, tag)[k]
      == TypeSelector(walk[k].node.id, DefaultType(exported, walk[k].depth), DefaultColumn(exported, walk[k].node));
  }

  /** `getNodeDepth`: the depth of the first unit (in preorder, at any depth) whose id is `targetId`. */
  function GetNodeDepth(nodes: seq<Node>, targetId: string, depth: nat): Option<nat>
    decreases nodes
  {
    if nodes == [] then None
    else if nodes[0].id == targetId then Some(depth)
    else match GetNodeDepth(nodes[0].subcategories, targetId, depth + 1)
      case Some(d) => Some(d)
      case None => GetNodeDepth(nodes[1..], targetId, depth)
  }

  /** `getNodeDepth` finds a unit carrying the id at the depth it reports, and reports nothing only when no unit carries it. */
  lemma {:induction false} GetNodeDepthCorrect(nodes: seq<Node>, targetId: string, depth: nat)
    ensures GetNodeDepth(nodes, targetId, depth).Some? ==>
      exists path :: GetByPath(nodes, path).Some? && GetByPath(nodes, path).value.id == targetId
        && GetNodeDepth(nodes, targetId, depth).value == depth + |path| - 1
    ensures GetNodeDepth(nodes, targetId, depth).None? ==>
      forall path :: GetByPath(nodes, path).Some? ==> GetByPath(nodes, path).value.id != targetId
    decreases nodes
  {
    if nodes != [] {
      GetNodeDepthCorrect(nodes[0].subcategories, targetId, depth + 1);
      GetNodeDepthCorrect(nodes[1..], targetId, depth);
      var r := GetNodeDepth(nodes, targetId, depth);
      if nodes[0].id == targetId {
        assert GetByPath(nodes, [0]) == Some(nodes[0]);
      } else if GetNodeDepth(nodes[0].subcategories, targetId, depth + 1).Some? {
        var path :| GetByPath(nodes[0].subcategories, path).Some?
          && GetByPath(nodes[0].subcategories, path).value.id == targetId
          && r.value == depth + 1 + |path| - 1;
        assert ([0] + path)[1..] == path;
        assert GetByPath(nodes, [0] + path) == GetByPath(nodes[0].subcategories, path);
      } else if r.Some? {
        var path :| GetByPath(nodes[1..], path).Some? && GetByPath(nodes[1..], path).value.id == targetId
          && r.value == depth + |path| - 1;
        var up := [path[0] + 1] + path[1..];
        assert up[1..] == path[1..];
        assert GetByPath(nodes, up) == GetByPath(nodes[1..], path);
      } else {
        forall path | GetByPath(nodes, path).Some?
          ensures GetByPath(nodes, path).value.id != targetId
        {
          if path[0] == 0 {
            if |path| > 1 {
              assert GetByPath(nodes, path) == GetByPath(nodes[0].subcategories, path[1..]);
            }
          } else {
            var down := [path[0] - 1] + path[1..];
            assert down[1..] == path[1..];
            assert GetByPath(nodes, path) == GetByPath(nodes[1..], down);
          }
        }
      }
    }
  }

  /** The bulk rule: levels down to the reference level connect, deeper levels are tasks. */
  function BulkType(depth: nat, referenceLevel: int): (t: NodeType)
    ensures t == Connection <==> depth <= referenceLevel
    ensures t == Task <==> depth > referenceLevel
  {
    if depth < referenceLevel then Connection
    else if depth == referenceLevel then Connection
    else Task
  }

  /**
   * `applyBulkDynamicSetup`: only when both the reference column and the dynamic
   * list are enabled, every selector whose unit is found is overwritten by the
   * bulk rule, whatever it held before (a skipped unit included).
   */
  function ApplyBulkDynamicSetup(selectors: seq<TypeSelector>, exportReference: bool, exportDynamicList: bool,
                                 referenceLevel: int, data: seq<Node>): (r: seq<TypeSelector>)
    ensures |r| == |selectors|
    ensures forall k :: 0 <= k < |r| ==> r[k].nodeId == selectors[k].nodeId && r[k].column == selectors[k].column
    ensures !(exportReference && exportDynamicList) ==> r == selectors
    ensures exportReference && exportDynamicList ==> forall k :: 0 <= k < |r| ==>
      match GetNodeDepth(data, selectors[k].nodeId, 0)
      case None => r[k] == selectors[k]
      case Some(d) => r[k].value != Skip && (r[k].value == Connection <==> d <= referenceLevel)
  {
    if !exportReference || !exportDynamicList then
      selectors
    else
      seq(|selectors|, k requires 0 <= k < |selectors| =>
        match GetNodeDepth(data, selectors[k].nodeId, 0)
        case None => selectors[k]
        case Some(d) => selectors[k].(value := BulkType(d, referenceLevel)))
  }

  predicate Assigns(s: TypeSelector)
  {
    s.value != Skip && s.column != ""
  }

  /**
   * The type half of the loop over `.dynamic-type-selector`s: every selector
   * records its type, a later selector for the same unit overriding an earlier one.
   */
  function ChosenTypes(sels: seq<TypeSelector>): map<string, NodeType>
  {
    if sels == [] then map[]
    else ChosenTypes(sels[..|sels| - 1])[sels[|sels| - 1].nodeId := sels[|sels| - 1].value]
  }

  /** The column half of the same loop: only a non-skipped selector with a chosen column records its column. */
  function ChosenColumns(sels: seq<TypeSelector>): map<string, string>
  {
    if sels == [] then map[]
    else if Assigns(sels[|sels| - 1]) then ChosenColumns(sels[..|sels| - 1])[sels[|sels| - 1].nodeId := sels[|sels| - 1].column]
    else ChosenColumns(sels[..|sels| - 1])
  }

  /** Exactly the units with a selector get a type. */
  lemma {:induction false} ChosenTypesDomain(sels: seq<TypeSelector>)
    ensures forall id :: id in ChosenTypes(sels) <==> exists i :: 0 <= i < |sels| && sels[i].nodeId == id
  {
    if sels != [] {
      var n := |sels| - 1;
      var pre := sels[..n];
      var last := sels[n];
      ChosenTypesDomain(pre);
      var m := ChosenTypes(sels);
      assert m == ChosenTypes(pre)[last.nodeId := last.value];
      forall id | id in m
        ensures exists i :: 0 <= i < |sels| && sels[i].nodeId == id
      {
        if id != last.nodeId {
          var i :| 0 <= i < n && pre[i].nodeId == id;
          assert sels[i] == pre[i];
        }
      }
      forall i | 0 <= i < |sels|
        ensures sels[i].nodeId in m
      {
        if i < n {
          assert pre[i] == sels[i];
        }
      }
    }
  }

  /** A unit's type is that of its last selector. */
  lemma {:induction false} ChosenTypesLastWins(sels: seq<TypeSelector>, i: nat)
    requires i < |sels|
    requires forall j :: i < j < |sels| ==> sels[j].nodeId != sels[i].nodeId
    ensures sels[i].nodeId in ChosenTypes(sels) && ChosenTypes(sels)[sels[i].nodeId] == sels[i].value
  {
    var n := |sels| - 1;
    var pre := sels[..n];
    var last := sels[n];
    assert ChosenTypes(sels) == ChosenTypes(pre)[last.nodeId := last.value];
    if i < n {
      assert pre[i] == sels[i];
      forall j | i < j < n
        ensures pre[j].nodeId != pre[i].nodeId
      {
        assert pre[j] == sels[j];
      }
      ChosenTypesLastWins(pre, i);
    }
  }

  /** A unit gets a column exactly when one of its selectors is not skipped and names a column; the column is never empty. */
  lemma {:induction false} ChosenColumnsOnlyAssigned(sels: seq<TypeSelector>)
    ensures forall id :: id in ChosenColumns(sels) <==> exists i :: 0 <= i < |sels| && sels[i].nodeId == id && Assigns(sels[i])
    ensures forall id :: id in ChosenColumns(sels) ==> ChosenColumns(sels)[id] != ""
  {
    if sels != [] {
      var n := |sels| - 1;
      var pre := sels[..n];
      var last := sels[n];
      ChosenColumnsOnlyAssigned(pre);
      var m := ChosenColumns(sels);
      assert m == if Assigns(last) then ChosenColumns(pre)[last.nodeId := last.column] else ChosenColumns(pre);
      forall id | id in m
        ensures exists i :: 0 <= i < |sels| && sels[i].nodeId == id && Assigns(sels[i])
      {
        if !(Assigns(last) && id == last.nodeId) {
          assert id in ChosenColumns(pre);
          var i :| 0 <= i < n && pre[i].nodeId == id && Assigns(pre[i]);
          assert sels[i] == pre[i];
        }
      }
      forall i | 0 <= i < |sels| && Assigns(sels[i])
        ensures sels[i].nodeId in m
      {
        if i < n {
          assert pre[i] == sels[i];
        }
      }
    }
  }

  /** `handleExportSubmit` up to the call of `executeWorkflowExport`: validate, then gather. */
  function GatherConfig(form: ExportForm, flowName: string): (r: Result<Config, ConfigError>)
    ensures var name := if form.boardName != "" then form.boardName else flowName;
      var scope := if form.scope.Some? then form.scope.value else Full;
      && (r == Err(MissingBoardName) <==> Trim(name) == "")
      && (r == Err(NoSectionSelected) <==> Trim(name) != "" && scope == Partial && form.checkedNodeIds == [])
      && (r == Err(NoTagSelected) <==> Trim(name) != "" && scope == TagScope && form.tagSelect == "")
    ensures r.Ok? ==>
      && Trim(r.value.boardName) != ""
      && (r.value.scope == Partial ==> r.value.selectedNodes != {})
      && (r.value.scope == TagScope ==> r.value.tagFilter != "")
  {
    var scope := if form.scope.Some? then form.scope.value else Full;
    var name := if form.boardName != "" then form.boardName else flowName;
    var selected := set id | id in form.checkedNodeIds;
    assert form.checkedNodeIds != [] ==> form.checkedNodeIds[0] in selected;
    if Trim(name) == "" then Err(MissingBoardName)
    else if scope == Partial && selected == {} then
      Err(NoSectionSelected)
    else if scope == TagScope && form.tagSelect == "" then Err(NoTagSelected)
    else
      Ok(Config(scope, name, form.boardDescription, form.exportReference, form.referenceLevel,
                form.exportDynamicList, if scope == Partial then selected else {},
                if scope == TagScope then form.tagSelect else "",
                if form.exportDynamicList then ChosenTypes(form.selectors) else map[],
                if form.exportDynamicList then ChosenColumns(form.selectors) else map[]))
  }

  /** The preview's `shouldNodeBeExported` and the export's scope rule agree on every unit. */
  lemma PreviewAgreesWithScope(form: ExportForm, flowName: string, node: Node)
    requires GatherConfig(form, flowName).Ok?
    ensures InScope(node, GatherConfig(form, flowName).value) <==>
      ShouldNodeBeExported(node, form.scope, (set id | id in form.checkedNodeIds), form.tagSelect)
  {
  }
}
