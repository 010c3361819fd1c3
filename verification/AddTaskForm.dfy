/** The add-task form (src/components/AddTaskForm.tsx): three fields edited
    in place, and a submit that refuses a blank title, hands on the trimmed
    record and clears the form. */
module AddTaskForm {

  import opened Wrappers
  import opened JsStrings
  import opened KanbanTypes

  class AddTaskForm {
    var title: string
    var description: string
    /** The select offers exactly the four statuses. */
    var status: Status

    constructor ()
      ensures title == "" && description == "" && status == Todo
    {
      title, description, status := "", "", Todo;
    }

    method SetTitle(value: string)
      modifies this
      ensures title == value && description == old(description) && status == old(status)
    {
      title := value;
    }

    method SetDescription(value: string)
      modifies this
      ensures description == value && title == old(title) && status == old(status)
    {
      description := value;
    }

    method SetStatus(value: Status)
      modifies this
      ensures status == value && title == old(title) && description == old(description)
    {
      status := value;
    }

    /** `handleSubmit`: a title that is only white space submits nothing and
        leaves the form as it was; otherwise the trimmed title, the trimmed
        description and the selected status are submitted, the submitted
        title is not empty and neither starts nor ends with white space, and the form is back to its initial values. */
    method HandleSubmit() returns (submitted: Option<TaskDraft>)
      modifies this
      ensures AllWhiteSpace(old(title)) ==>
                submitted.None? && title == old(title) && description == old(description) && status == old(status)
      ensures !AllWhiteSpace(old(title)) ==>
                submitted == Some(TaskDraft(Trim(old(title)), Trim(old(description)), old(status).Id()))
                && submitted.value.title != ""
                && NoOuterWhiteSpace(submitted.value.title)
                && title == "" && description == "" && status == Todo
    {
      var trimmed := Trim(title);
      if trimmed == "" {
        return None;
      }
      TrimEnds(title);
      submitted := Some(TaskDraft(trimmed, Trim(description), status.Id()));
      title, description, status := "", "", Todo;
    }
  }
}
