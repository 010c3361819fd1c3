/** The board's rules (src/components/KanbanBoard.tsx): the four status
    columns computed from the task list, the drag-end rule that turns a drop
    into at most one status update, the task made from spoken text, and the
    sequential creation of generated tasks. */
module KanbanBoard {

  import opened Wrappers
  import opened Seqs
  import opened JsStrings
  import opened KanbanTypes
  import opened UseTasks
  import TaskGeneration

  /** The four empty columns, in board order. */
  const InitialColumns: seq<Column> := [
    Column("todo", "To Do", Todo, []),
    Column("in-progress", "In Progress", InProgress, []),
    Column("done", "Done", Done, []),
    Column("archived", "Archived", Archived, [])
  ]

  /** Each initial column is the column of its status: its id is the
      status id. */
  lemma InitialColumnsOrder()
    ensures |InitialColumns| == 4
    ensures InitialColumns[0].status == Todo && InitialColumns[1].status == InProgress
    ensures InitialColumns[2].status == Done && InitialColumns[3].status == Archived
    ensures forall k :: 0 <= k < 4 ==> InitialColumns[k].id == InitialColumns[k].status.Id()
  {
  }

  /** `tasks.filter(task => task.status === column.status)`. */
  function WithStatus(tasks: seq<Task>, st: Status): (r: seq<Task>)
    ensures forall t :: t in r <==> t in tasks && t.status == st.Id()
    ensures forall t :: multiset(r)[t] == if t.status == st.Id() then multiset(tasks)[t] else 0
  {
    Filter(tasks, (t: Task) => t.status == st.Id())
  }

  /** The `columns` memo: every initial column with its tasks filled in. */
  function ColumnsOf(tasks: seq<Task>): (cols: seq<Column>)
    ensures |cols| == |InitialColumns|
    ensures forall k :: 0 <= k < |cols| ==>
              cols[k] == InitialColumns[k].(tasks := WithStatus(tasks, InitialColumns[k].status))
  {
    seq(|InitialColumns|, k requires 0 <= k < |InitialColumns| =>
      InitialColumns[k].(tasks := WithStatus(tasks, InitialColumns[k].status)))
  }

  /** A column holds its tasks in the order of the list: the columns of a
      concatenation are the concatenated columns. */
  lemma ColumnsKeepOrder(a: seq<Task>, b: seq<Task>, k: nat)
    requires k < |InitialColumns|
    ensures ColumnsOf(a + b)[k].tasks == ColumnsOf(a)[k].tasks + ColumnsOf(b)[k].tasks
  {
    FilterConcat(a, b, (t: Task) => t.status == InitialColumns[k].status.Id());
  }

  /** A task whose status is one of the four is in exactly the column of
      that status; a task with any other status is in no column. */
  lemma ExactlyOneColumn(tasks: seq<Task>, t: Task)
    requires t in tasks
    ensures var cols := ColumnsOf(tasks);
            match StatusOf(t.status)
            case Some(st) => forall k :: 0 <= k < |cols| ==> (t in cols[k].tasks <==> cols[k].status == st)
            case None => forall k :: 0 <= k < |cols| ==> t !in cols[k].tasks
  {
  }

  /** When every status is one of the four, the columns split the list:
      together they hold every task as often as the list does, so their
      sizes add up to the number of tasks. */
  lemma ColumnsPartition(tasks: seq<Task>)
    requires forall t :: t in tasks ==> StatusOf(t.status).Some?
    ensures var cols := ColumnsOf(tasks);
            multiset(cols[0].tasks) + multiset(cols[1].tasks) + multiset(cols[2].tasks) + multiset(cols[3].tasks)
              == multiset(tasks)
    ensures var cols := ColumnsOf(tasks);
            |cols[0].tasks| + |cols[1].tasks| + |cols[2].tasks| + |cols[3].tasks| == |tasks|
  {
  }

  /** `columns.find(col => col.id === id)`: the first column with the id. */
  function FindColumn(cols: seq<Column>, id: string): (r: Option<Column>)
    ensures r.None? <==> forall c :: c in cols ==> c.id != id
    ensures r.Some? ==> exists k :: 0 <= k < |cols| && cols[k] == r.value && r.value.id == id
                                    && forall j :: 0 <= j < k ==> cols[j].id != id
  {
    if cols == [] then None
    else if cols[0].id == id then Some(cols[0])
    else
      var r := FindColumn(cols[1..], id);
      if r.Some? then
        var k :| 0 <= k < |cols[1..]| && cols[1..][k] == r.value && r.value.id == id
                 && forall j :: 0 <= j < k ==> cols[1..][j].id != id;
        assert cols[k + 1] == r.value;
        r
      else
        assert forall c :: c in cols ==> c == cols[0] || c in cols[1..];
        r
  }

  /** The drag-end rule: no destination, an unknown source column, no task
      at the source index, or a drop into the same column each do nothing;
      otherwise the task at the source index gets the destination column's
      id as its status. */
  function OnDragEnd(cols: seq<Column>, result: DropResult): (u: Option<StatusUpdate>)
    ensures u.Some? <==>
              && result.destination.Some?
              && FindColumn(cols, result.source.droppableId).Some?
              && 0 <= result.source.index < |FindColumn(cols, result.source.droppableId).value.tasks|
              && result.source.droppableId != result.destination.value.droppableId
    ensures u.Some? ==>
              && u.value.status == result.destination.value.droppableId
              && u.value.taskId == FindColumn(cols, result.source.droppableId).value.tasks[result.source.index].id
  {
    match result.destination
    case None => None
    case Some(destination) =>
      match FindColumn(cols, result.source.droppableId)
      case None => None
      case Some(column) =>
        if !(0 <= result.source.index < |column.tasks|) then None
        else if result.source.droppableId == destination.droppableId then None
        else Some(StatusUpdate(column.tasks[result.source.index].id, destination.droppableId))
  }

  /** On the board's own columns a drag moves a task that is on the board
      and sits in the source column, and always changes its status: the new
      status differs from the one the task has. A source that is not one of
      the four column ids never moves anything. */
  lemma DragChangesStatus(tasks: seq<Task>, result: DropResult)
    ensures StatusOf(result.source.droppableId).None? ==> OnDragEnd(ColumnsOf(tasks), result).None?
    ensures var u := OnDragEnd(ColumnsOf(tasks), result);
            u.Some? ==> exists t :: t in tasks && t.id == u.value.taskId
                                    && t.status == result.source.droppableId && t.status != u.value.status
  {
    var cols := ColumnsOf(tasks);
    InitialColumnsOrder();
    var u := OnDragEnd(cols, result);
    if u.Some? {
      var c := FindColumn(cols, result.source.droppableId).value;
      var t := c.tasks[result.source.index];
      assert t in c.tasks;
      assert t in tasks && t.status == c.status.Id();
    }
  }

  /** `onDragEnd` on the board: the update, when there is one, goes to the
      task list; a store error is passed on. */
  method HandleDragEnd(list: TaskList, result: DropResult, update: (string, TaskPatch) -> Result<Row, StoreError>)
    returns (r: Option<Result<Task, StoreError>>)
    modifies list
    ensures var u := OnDragEnd(ColumnsOf(old(list.tasks)), result);
            && (u.None? ==> r.None? && list.tasks == old(list.tasks))
            && (u.Some? ==> r.Some? && r.value == ResultOfUpdate(update(u.value.taskId, StatusPatch(u.value.status))))
            && (u.Some? && r.value.Success? ==> list.tasks == ReplaceById(old(list.tasks), u.value.taskId, r.value.value))
            && (u.Some? && r.value.Failure? ==> list.tasks == old(list.tasks))
    ensures list.loading == old(list.loading)
  {
    var u := OnDragEnd(ColumnsOf(list.tasks), result);
    if u.None? {
      return None;
    }
    var updated := list.UpdateTask(u.value.taskId, StatusPatch(u.value.status), update);
    r := Some(updated);
  }

  /** What the task list hands back for a store answer to an update. */
  function ResultOfUpdate(reply: Result<Row, StoreError>): (r: Result<Task, StoreError>)
    ensures r.Success? <==> reply.Success?
    ensures r.Success? ==> r.value == ToTask(reply.value)
    ensures r.Failure? ==> r.error == reply.error
  {
    match reply
    case Success(row) => Success(ToTask(row))
    case Failure(e) => Failure(e)
  }

  /** The title of a spoken task: the text when it has at most 50
      characters, otherwise its first 50 characters and an ellipsis. */
  function VoiceTitle(text: string): (t: string)
    ensures |text| <= TaskGeneration.TitleLimit ==> t == text
    ensures |text| > TaskGeneration.TitleLimit ==> |t| == TaskGeneration.TitleLimit + 3 && t[TaskGeneration.TitleLimit..] == "..."
  {
    if |text| > TaskGeneration.TitleLimit then text[..TaskGeneration.TitleLimit] + "..." else text
  }

  /** Spoken tasks and fallback tasks are titled the same way. */
  lemma VoiceTitleIsFallbackTitle(text: string)
    ensures VoiceTitle(text) == TaskGeneration.FallbackTitle(text)
  {
  }

  /** The task spoken text turns into: none for text that is only white
      space, otherwise a `todo` task with the truncated title and the whole
      text as description. */
  function VoiceDraft(text: string): (d: Option<TaskDraft>)
    ensures d.None? <==> AllWhiteSpace(text)
    ensures d.Some? ==> d.value == TaskDraft(TaskGeneration.FallbackTitle(text), text, Todo.Id())
  {
    VoiceTitleIsFallbackTitle(text);
    if Trim(text) == "" then None
    else Some(TaskDraft(VoiceTitle(text), text, Todo.Id()))
  }

  /** `handleVoiceInput`: creates the spoken task; a store error is
      reported and swallowed, so the caller only sees what was created. */
  method HandleVoiceInput(list: TaskList, text: string, insert: TaskDraft -> Result<Row, StoreError>)
    returns (created: Option<Task>)
    modifies list
    ensures VoiceDraft(text).None? ==> created.None? && list.tasks == old(list.tasks)
    ensures VoiceDraft(text).Some? && insert(VoiceDraft(text).value).Failure? ==>
              created.None? && list.tasks == old(list.tasks)
    ensures VoiceDraft(text).Some? && insert(VoiceDraft(text).value).Success? ==>
              created == Some(ToTask(insert(VoiceDraft(text).value).value))
              && list.tasks == old(list.tasks) + [created.value]
    ensures list.loading == old(list.loading)
  {
    var draft := VoiceDraft(text);
    if draft.None? {
      return None;
    }
    var r := list.CreateTask(draft.value, insert);
    created := if r.Success? then Some(r.value) else None;
  }

  /** `handleTasksGenerated`: creates the drafts one after the other and
      stops at the first store error. `insert(i, d)` is the store's answer to
      the i-th create. `created` is how many were made; the generator is
      closed only when all were. */
  method HandleTasksGenerated(list: TaskList, drafts: seq<TaskDraft>, insert: (nat, TaskDraft) -> Result<Row, StoreError>)
    returns (created: nat, closed: bool)
    modifies list
    ensures created <= |drafts|
    ensures forall i :: 0 <= i < created ==> insert(i, drafts[i]).Success?
    ensures created < |drafts| ==> insert(created, drafts[created]).Failure?
    ensures closed <==> created == |drafts|
    ensures |list.tasks| == |old(list.tasks)| + created
    ensures list.tasks[..|old(list.tasks)|] == old(list.tasks)
    ensures forall i :: 0 <= i < created ==>
              list.tasks[|old(list.tasks)| + i] == ToTask(insert(i, drafts[i]).value)
    ensures list.loading == old(list.loading)
  {
    var before := list.tasks;
    created := 0;
    while created < |drafts|
      invariant created <= |drafts|
      invariant forall i :: 0 <= i < created ==> insert(i, drafts[i]).Success?
      invariant |list.tasks| == |before| + created
      invariant list.tasks[..|before|] == before
      invariant forall i :: 0 <= i < created ==> list.tasks[|before| + i] == ToTask(insert(i, drafts[i]).value)
      invariant list.loading == old(list.loading)
    {
      var k := created;
      var r := list.CreateTask(drafts[k], d => insert(k, d));
      if r.Failure? {
        return created, false;
      }
      created := created + 1;
    }
    closed := true;
  }
}
