/** The in-memory task list of the board (src/hooks/useTasks.ts). Each
    operation first asks the remote store and changes the list only after
    the store answers without error: fetch replaces the list, create appends
    one task, update replaces by id, delete filters by id.

    The store is not modelled: each operation receives the store's answer
    as a function of exactly what is sent to it, so the parameter types show
    what leaves the board (title, description and status only). */
module UseTasks {

  import opened Wrappers
  import opened Seqs
  import opened KanbanTypes

  /** A row of the `tasks` table as the store returns it; the description
      column may be null. */
  datatype Row = Row(
    id: string,
    title: string,
    description: Option<string>,
    status: string,
    createdAt: string,
    updatedAt: string)

  /** The error object the store reports. */
  datatype StoreError = StoreError(message: string)

  /** The fields an update sends; an absent field is not sent. */
  datatype TaskPatch = TaskPatch(title: Option<string>, description: Option<string>, status: Option<string>)

  /** The patch a status-only move sends. */
  function StatusPatch(status: string): (p: TaskPatch)
    ensures p.title.None? && p.description.None? && p.status == Some(status)
  {
    TaskPatch(None, None, Some(status))
  }

  /** A store row as a task: id, title, status and timestamps are copied, a
      null or empty description becomes the empty string. */
  function ToTask(row: Row): (t: Task)
    ensures t.id == row.id && t.title == row.title && t.status == row.status
    ensures t.createdAt == row.createdAt && t.updatedAt == row.updatedAt
    ensures row.description.None? ==> t.description == ""
    ensures row.description.Some? ==> t.description == row.description.value
  {
    var description := if row.description.Some? then row.description.value else "";
    Task(row.id, row.title, description, row.status, row.createdAt, row.updatedAt)
  }

  /** `prev.map(task => task.id === id ? updated : task)`. */
  function ReplaceById(ts: seq<Task>, id: string, updated: Task): (r: seq<Task>)
    ensures |r| == |ts|
    ensures forall i :: 0 <= i < |ts| ==> r[i] == if ts[i].id == id then updated else ts[i]
  {
    if ts == [] then []
    else [if ts[0].id == id then updated else ts[0]] + ReplaceById(ts[1..], id, updated)
  }

  /** Replacing an id no task has changes nothing. */
  lemma ReplaceAbsentId(ts: seq<Task>, id: string, updated: Task)
    requires forall t :: t in ts ==> t.id != id
    ensures ReplaceById(ts, id, updated) == ts
  {
  }

  /** After a replace every task with the id is the returned one, and every
      other task was already in the list. */
  lemma ReplaceByIdContents(ts: seq<Task>, id: string, updated: Task)
    ensures forall t :: t in ReplaceById(ts, id, updated) ==> t == updated || (t in ts && t.id != id)
    ensures updated.id == id ==> forall t :: t in ReplaceById(ts, id, updated) && t.id == id ==> t == updated
  {
  }

  /** Replacing twice with the same task is replacing once. */
  lemma ReplaceIdempotent(ts: seq<Task>, id: string, updated: Task)
    ensures ReplaceById(ReplaceById(ts, id, updated), id, updated) == ReplaceById(ts, id, updated)
  {
  }

  /** `prev.filter(task => task.id !== id)`. */
  function RemoveById(ts: seq<Task>, id: string): (r: seq<Task>)
    ensures |r| <= |ts|
    ensures forall t :: t in r <==> t in ts && t.id != id
    ensures forall t :: multiset(r)[t] == if t.id != id then multiset(ts)[t] else 0
  {
    Filter(ts, (t: Task) => t.id != id)
  }

  /** Removal keeps the relative order of what stays: removing from a
      concatenation removes from each part. */
  lemma RemoveKeepsOrder(a: seq<Task>, b: seq<Task>, id: string)
    ensures RemoveById(a + b, id) == RemoveById(a, id) + RemoveById(b, id)
  {
    FilterConcat(a, b, (t: Task) => t.id != id);
  }

  /** Removing an id no task has changes nothing, so removing twice is
      removing once. */
  lemma RemoveAbsentId(ts: seq<Task>, id: string)
    requires forall t :: t in ts ==> t.id != id
    ensures RemoveById(ts, id) == ts
  {
    FilterKeepsAll(ts, (t: Task) => t.id != id);
  }

  lemma RemoveIdempotent(ts: seq<Task>, id: string)
    ensures RemoveById(RemoveById(ts, id), id) == RemoveById(ts, id)
  {
    RemoveAbsentId(RemoveById(ts, id), id);
  }

  /** The hook's state: the list shown on the board and the loading flag. */
  class TaskList {
    var tasks: seq<Task>
    var loading: bool

    constructor ()
      ensures tasks == [] && loading
    {
      tasks := [];
      loading := true;
    }

    /** `fetchTasks`: on success the list becomes the rows, mapped, in the
        store's order; on error it is kept. Loading ends either way. */
    method FetchTasks(reply: Result<seq<Row>, StoreError>)
      modifies this
      ensures !loading
      ensures reply.Success? ==> |tasks| == |reply.value|
      ensures reply.Success? ==> forall i :: 0 <= i < |tasks| ==> tasks[i] == ToTask(reply.value[i])
      ensures reply.Failure? ==> tasks == old(tasks)
    {
      if reply.Success? {
        var rows := reply.value;
        tasks := seq(|rows|, i requires 0 <= i < |rows| => ToTask(rows[i]));
      }
      loading := false;
    }

    /** `createTask`: the store is sent the draft's three fields; on
        success exactly one task, the stored row, is appended; on error the
        list is kept and the error is rethrown. */
    method CreateTask(draft: TaskDraft, insert: TaskDraft -> Result<Row, StoreError>)
      returns (r: Result<Task, StoreError>)
      modifies this
      ensures insert(draft).Failure? ==> r == Failure(insert(draft).error) && tasks == old(tasks)
      ensures insert(draft).Success? ==> r == Success(ToTask(insert(draft).value))
      ensures r.Success? ==> tasks == old(tasks) + [r.value]
      ensures loading == old(loading)
    {
      match insert(draft)
      case Failure(e) =>
        r := Failure(e);
      case Success(row) =>
        var created := ToTask(row);
        tasks := tasks + [created];
        r := Success(created);
    }

    /** `updateTask`: the store is sent the patch for `id`; on success every
        task with that id becomes the returned row and nothing else moves;
        on error the list is kept and the error is rethrown. */
    method UpdateTask(id: string, updates: TaskPatch, update: (string, TaskPatch) -> Result<Row, StoreError>)
      returns (r: Result<Task, StoreError>)
      modifies this
      ensures update(id, updates).Failure? ==> r == Failure(update(id, updates).error) && tasks == old(tasks)
      ensures update(id, updates).Success? ==> r == Success(ToTask(update(id, updates).value))
      ensures r.Success? ==> tasks == ReplaceById(old(tasks), id, r.value)
      ensures loading == old(loading)
    {
      match update(id, updates)
      case Failure(e) =>
        r := Failure(e);
      case Success(row) =>
        var updated := ToTask(row);
        tasks := ReplaceById(tasks, id, updated);
        r := Success(updated);
    }

    /** `deleteTask`: on success every task with the id is removed, the rest
        in order; on error the list is kept and the error is rethrown. */
    method DeleteTask(id: string, delete: string -> Option<StoreError>)
      returns (r: Option<StoreError>)
      modifies this
      ensures r == delete(id)
      ensures r.Some? ==> tasks == old(tasks)
      ensures r.None? ==> tasks == RemoveById(old(tasks), id)
      ensures loading == old(loading)
    {
      r := delete(id);
      if r.None? {
        tasks := RemoveById(tasks, id);
      }
    }
  }
}
