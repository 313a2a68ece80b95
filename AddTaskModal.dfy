/**
 * The "Add New Task" dialog's form. Submitting hands a draft to the store's
 * `addTask`; the draft is returned here, or None when nothing is submitted.
 */
module AddTaskModal {
  import opened Wrappers
  import opened Text
  import opened TaskCard

  /** The submit button is disabled for a blank title and while a task is being created. */
  function SubmitDisabled(title: string, loading: bool): (disabled: bool)
    ensures disabled <==> Trim(title) == [] || loading
  {
    IsBlank(title) || loading
  }

  class AddTaskForm {
    var title: string
    var priority: Priority

    constructor ()
      ensures title == "" && priority == Medium
    {
      title := "";
      priority := Medium;
    }

    /** Typing in the title field. */
    method SetTitle(text: string)
      modifies this`title
      ensures title == text
    {
      title := text;
    }

    /** Choosing a priority. */
    method SetPriority(p: Priority)
      modifies this`priority
      ensures priority == p
    {
      priority := p;
    }

    /**
     * Submitting: a blank title is ignored and the form kept; otherwise a
     * to-do draft with the trimmed title, the chosen priority and no subtasks
     * is handed over and the form goes back to its initial values.
     */
    method HandleSubmit() returns (call: Option<TaskDraft>)
      modifies this
      ensures call.Some? <==> !IsBlank(old(title))
      ensures call.None? ==> title == old(title) && priority == old(priority)
      ensures call.Some? ==> call.value == TaskDraft(Trim(old(title)), old(priority), Todo, [])
      ensures call.Some? ==> !IsBlank(call.value.title)
      ensures call.Some? ==> title == "" && priority == Medium
    {
      var trimmed := Trim(title);
      if trimmed != "" {
        TrimmedNotBlank(title);
        call := Some(TaskDraft(trimmed, priority, Todo, []));
        title := "";
        priority := Medium;
      } else {
        call := None;
      }
    }
  }

  /** An enabled submit button always leads to a draft with a visible title. */
  lemma EnabledSubmitHasVisibleTitle(title: string, loading: bool)
    requires !SubmitDisabled(title, loading)
    ensures Trim(title) != [] && !IsBlank(Trim(title))
  {
    TrimmedNotBlank(title);
  }
}
