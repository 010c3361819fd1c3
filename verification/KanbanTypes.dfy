/** The board's records (src/types/kanban.ts) and the drag-and-drop result
    the board reacts to. */
module KanbanTypes {

  import opened Wrappers

  /** The four statuses a task is meant to have, one per board column. */
  datatype Status = Todo | InProgress | Done | Archived
  {
    /** The string the status is stored and compared as; it is also the
        column's droppable id. */
    function Id(): string
    {
      match this
      case Todo => "todo"
      case InProgress => "in-progress"
      case Done => "done"
      case Archived => "archived"
    }
  }

  /** Different statuses have different ids. */
  lemma IdInjective(a: Status, b: Status)
    ensures a.Id() == b.Id() ==> a == b
  {
  }

  /** The status whose id is `s`, if there is one: the inverse of `Id`. */
  function StatusOf(s: string): (r: Option<Status>)
    ensures r.Some? ==> r.value.Id() == s
    ensures r.None? ==> forall st: Status :: st.Id() != s
  {
    if s == "todo" then Some(Todo)
    else if s == "in-progress" then Some(InProgress)
    else if s == "done" then Some(Done)
    else if s == "archived" then Some(Archived)
    else None
  }

  /** Reading back an id gives the status it came from. */
  lemma StatusOfId(st: Status)
    ensures StatusOf(st.Id()) == Some(st)
  {
  }

  /** A persisted task. `status` holds the string the store returned; the
      source casts it to the four-value type without checking it. The
      timestamps are kept as the store's strings. */
  datatype Task = Task(
    id: string,
    title: string,
    description: string,
    status: string,
    createdAt: string,
    updatedAt: string)

  /** A task before the store gives it an id and timestamps: the fields a
      create sends (`Omit<Task, 'id' | 'createdAt' | 'updatedAt'>`). */
  datatype TaskDraft = TaskDraft(title: string, description: string, status: string)

  datatype Column = Column(id: string, title: string, status: Status, tasks: seq<Task>)

  /** Where a card was picked up or dropped: a droppable id and a position. */
  datatype DraggableLocation = DraggableLocation(droppableId: string, index: int)

  /** What the drag-and-drop library reports when a drag ends. */
  datatype DropResult = DropResult(
    draggableId: string,
    source: DraggableLocation,
    destination: Option<DraggableLocation>)

  /** One status change to send to the store for one task. */
  datatype StatusUpdate = StatusUpdate(taskId: string, status: string)
}
