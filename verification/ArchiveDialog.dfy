/** The archive dialog's drag rule (src/components/ArchiveDialog.tsx): a
    card dragged out of the archived column onto any other column is
    restored to that column's status; every other drop does nothing. */
module ArchiveDialog {

  import opened Wrappers
  import opened KanbanTypes

  /** The columns an archived card can be restored to, in dialog order. */
  const TargetColumns: seq<Status> := [Todo, InProgress, Done]

  /** The restore rule: an update exactly when there is a destination, the
      source is the archived column and the destination is not; it moves the
      dragged card to the destination column's id. */
  function OnDragEnd(result: DropResult): (u: Option<StatusUpdate>)
    ensures u.Some? <==> result.destination.Some?
                         && result.source.droppableId == Archived.Id()
                         && result.destination.value.droppableId != Archived.Id()
    ensures u.Some? ==> u.value == StatusUpdate(result.draggableId, result.destination.value.droppableId)
  {
    match result.destination
    case None => None
    case Some(destination) =>
      if result.source.droppableId == Archived.Id() && destination.droppableId != Archived.Id() then
        Some(StatusUpdate(result.draggableId, destination.droppableId))
      else
        None
  }

  /** A card dropped from the archive onto one of the dialog's target
      columns is restored to that column's status. */
  lemma RestoreToTarget(result: DropResult, target: Status)
    requires target in TargetColumns
    requires result.source.droppableId == Archived.Id()
    requires result.destination.Some? && result.destination.value.droppableId == target.Id()
    ensures OnDragEnd(result).Some?
    ensures OnDragEnd(result).value.taskId == result.draggableId
    ensures StatusOf(OnDragEnd(result).value.status) == Some(target)
  {
  }

  /** The targets are exactly the statuses other than `archived`. */
  lemma TargetsAreNotArchived()
    ensures forall st: Status :: st in TargetColumns <==> st != Archived
  {
  }

  /** Drags that do not start in the archived column never restore. */
  lemma OnlyArchivedRestores(result: DropResult)
    requires result.source.droppableId != Archived.Id()
    ensures OnDragEnd(result).None?
  {
  }
}
