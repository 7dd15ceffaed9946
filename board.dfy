/**
 * The Kanban board that `executeWorkflowExport` (export-to-board-module.js)
 * builds. Only the fields the export fills from the workflow are modelled;
 * colours, timestamps, members, schedules and other constant boilerplate are not.
 */
module Board {
  import opened Wrappers

  /** The role a unit plays in the board's dynamic list. */
  datatype NodeType = Task | Connection | Skip

  datatype Column = Column(id: string, name: string, order: nat, limit: Option<nat>, locked: bool)

  /** Footer items of a unit become typed card attachments. */
  datatype Attachment =
    | CommentAttachment(content: string)
    | NoteAttachment(title: string, content: string)
    | LinkAttachment(url: string, title: string)
    | ImageAttachment(url: string, title: string)

  datatype Card = Card(
    id: string,
    boardId: string,
    columnId: string,
    order: nat,
    title: string,
    description: string,
    sourceId: string,
    sourceGrade: Option<int>,
    isDone: bool,
    attachments: seq<Attachment>,
    labels: seq<string>)

  datatype Label = Label(id: string, name: string)

  datatype TaskData = TaskData(description: string, isDone: bool)

  datatype DynamicNode = DynamicNode(
    id: string,
    title: string,
    nodeType: NodeType,
    parentId: Option<string>,
    level: nat,
    order: nat,
    linkedTaskIds: seq<string>,
    taskData: Option<TaskData>)

  datatype Board = Board(
    id: string,
    name: string,
    description: string,
    sourceFlowId: string,
    columns: seq<Column>,
    cards: seq<Card>,
    labels: seq<Label>,
    dynamicListActive: bool,
    dynamicNodes: seq<DynamicNode>)

  function ColumnIds(columns: seq<Column>): set<string>
  {
    set c | c in columns :: c.id
  }

  function CardIds(cards: seq<Card>): set<string>
  {
    set c | c in cards :: c.id
  }

  function LabelNames(labels: seq<Label>): set<string>
  {
    set l | l in labels :: l.name
  }

  /** No two labels of the palette share a name. */
  predicate UniqueLabelNames(labels: seq<Label>)
  {
    forall i, j :: 0 <= i < j < |labels| ==> labels[i].name != labels[j].name
  }
}
