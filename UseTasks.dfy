/**
 * The task store: the list of tasks and the two flags the page shows
 * (`loading`, `modalOpen`). Each update is a pure transformation of the list,
 * defined first as a function; the store's methods replace the list with it.
 * Ids come from the clock in the program and are parameters here; an update
 * applies to every task whose id matches.
 */
module UseTasks {
  import opened Wrappers
  import opened Text
  import opened TaskCard
  import AiService

  /**
   * The initial list: the stored text parsed as a task list, or the empty list
   * when nothing (or the empty string) is stored or the text does not parse.
   * `parse` stands for `JSON.parse`; its result is used without validation.
   */
  function LoadTasks(saved: Option<string>, parse: string -> Option<seq<Task>>): (r: seq<Task>)
    ensures saved.None? ==> r == []
    ensures saved == Some("") ==> r == []
    ensures saved.Some? && parse(saved.value).None? ==> r == []
    ensures saved.Some? && saved.value != "" && parse(saved.value).Some? ==> r == parse(saved.value).value
    ensures r != [] ==> saved.Some? && saved.value != "" && parse(saved.value) == Some(r)
  {
    match saved
    case None => []
    case Some(text) =>
      if text == "" then []
      else match parse(text)
        case None => []
        case Some(tasks) => tasks
  }

  /** The task `addTask` builds: always in the to-do column, whatever the draft says. */
  function NewTask(draft: TaskDraft, id: string, suggestions: seq<string>): (t: Task)
    ensures t.id == id && t.title == draft.title && t.priority == draft.priority
    ensures t.column == Todo
    ensures t.aiSuggestions == suggestions && t.subtasks == draft.subtasks
  {
    Task(id, draft.title, draft.priority, suggestions, Todo, draft.subtasks)
  }

  /** `addTask`'s update: the new task goes at the end, the existing tasks stay as they were. */
  function AppendedTasks(tasks: seq<Task>, draft: TaskDraft, id: string, suggestions: seq<string>): (r: seq<Task>)
    ensures |r| == |tasks| + 1
    ensures r[..|tasks|] == tasks
    ensures r[|tasks|] == NewTask(draft, id, suggestions)
  {
    tasks + [NewTask(draft, id, suggestions)]
  }

  /** `moveTask`'s update. */
  function MovedTasks(tasks: seq<Task>, id: string, column: Column): (r: seq<Task>)
    ensures |r| == |tasks|
    ensures forall i :: 0 <= i < |r| ==> r[i].column == if tasks[i].id == id then column else tasks[i].column
    ensures forall i :: 0 <= i < |r| ==> r[i].(column := tasks[i].column) == tasks[i]
  {
    if tasks == [] then []
    else
      var t := tasks[0];
      [if t.id == id then t.(column := column) else t] + MovedTasks(tasks[1..], id, column)
  }

  /** `editTask`'s update. */
  function EditedTasks(tasks: seq<Task>, id: string, title: string): (r: seq<Task>)
    ensures |r| == |tasks|
    ensures forall i :: 0 <= i < |r| ==> r[i].title == if tasks[i].id == id then title else tasks[i].title
    ensures forall i :: 0 <= i < |r| ==> r[i].(title := tasks[i].title) == tasks[i]
  {
    if tasks == [] then []
    else
      var t := tasks[0];
      [if t.id == id then t.(title := title) else t] + EditedTasks(tasks[1..], id, title)
  }

  /** `addSubtask`'s update: one unchecked item at the end of each matching task's checklist. */
  function TasksWithSubtask(tasks: seq<Task>, id: string, subtaskId: string, title: string): (r: seq<Task>)
    ensures |r| == |tasks|
    ensures forall i :: 0 <= i < |r| ==>
      r[i].subtasks == if tasks[i].id == id then tasks[i].subtasks + [SubTask(subtaskId, title, false)] else tasks[i].subtasks
    ensures forall i :: 0 <= i < |r| ==> r[i].(subtasks := tasks[i].subtasks) == tasks[i]
  {
    if tasks == [] then []
    else
      var t := tasks[0];
      [if t.id == id then t.(subtasks := t.subtasks + [SubTask(subtaskId, title, false)]) else t]
        + TasksWithSubtask(tasks[1..], id, subtaskId, title)
  }

  /** Flips `completed` on the subtasks with the given id. */
  function ToggledSubtasks(subtasks: seq<SubTask>, subtaskId: string): (r: seq<SubTask>)
    ensures |r| == |subtasks|
    ensures forall j :: 0 <= j < |r| ==>
      r[j].completed == if subtasks[j].id == subtaskId then !subtasks[j].completed else subtasks[j].completed
    ensures forall j :: 0 <= j < |r| ==> r[j].(completed := subtasks[j].completed) == subtasks[j]
  {
    if subtasks == [] then []
    else
      var s := subtasks[0];
      [if s.id == subtaskId then s.(completed := !s.completed) else s] + ToggledSubtasks(subtasks[1..], subtaskId)
  }

  /** `toggleSubtask`'s update. */
  function TasksWithToggled(tasks: seq<Task>, id: string, subtaskId: string): (r: seq<Task>)
    ensures |r| == |tasks|
    ensures forall i :: 0 <= i < |r| ==>
      r[i].subtasks == if tasks[i].id == id then ToggledSubtasks(tasks[i].subtasks, subtaskId) else tasks[i].subtasks
    ensures forall i :: 0 <= i < |r| ==> r[i].(subtasks := tasks[i].subtasks) == tasks[i]
  {
    if tasks == [] then []
    else
      var t := tasks[0];
      [if t.id == id then t.(subtasks := ToggledSubtasks(t.subtasks, subtaskId)) else t]
        + TasksWithToggled(tasks[1..], id, subtaskId)
  }

  /** Some task in the list has this id. */
  predicate HasTask(tasks: seq<Task>, id: string) {
    exists i :: 0 <= i < |tasks| && tasks[i].id == id
  }

  /** Moving twice to the same column is moving once. */
  lemma MoveIdempotent(tasks: seq<Task>, id: string, column: Column)
    ensures MovedTasks(MovedTasks(tasks, id, column), id, column) == MovedTasks(tasks, id, column)
  {
    var once := MovedTasks(tasks, id, column);
    var twice := MovedTasks(once, id, column);
    forall i | 0 <= i < |tasks| ensures twice[i] == once[i] {
      assert twice[i].(column := once[i].column) == once[i];
    }
  }

  /** Moving an id that is not on the board changes nothing. */
  lemma MoveUnknownIsNoop(tasks: seq<Task>, id: string, column: Column)
    requires !HasTask(tasks, id)
    ensures MovedTasks(tasks, id, column) == tasks
  {
    var r := MovedTasks(tasks, id, column);
    forall i | 0 <= i < |tasks| ensures r[i] == tasks[i] {
      assert r[i].(column := tasks[i].column) == tasks[i];
    }
  }

  /** Renaming twice to the same title is renaming once. */
  lemma EditIdempotent(tasks: seq<Task>, id: string, title: string)
    ensures EditedTasks(EditedTasks(tasks, id, title), id, title) == EditedTasks(tasks, id, title)
  {
    var once := EditedTasks(tasks, id, title);
    var twice := EditedTasks(once, id, title);
    forall i | 0 <= i < |tasks| ensures twice[i] == once[i] {
      assert twice[i].(title := once[i].title) == once[i];
    }
  }

  /** Renaming an id that is not on the board changes nothing. */
  lemma EditUnknownIsNoop(tasks: seq<Task>, id: string, title: string)
    requires !HasTask(tasks, id)
    ensures EditedTasks(tasks, id, title) == tasks
  {
    var r := EditedTasks(tasks, id, title);
    forall i | 0 <= i < |tasks| ensures r[i] == tasks[i] {
      assert r[i].(title := tasks[i].title) == tasks[i];
    }
  }

  /** Adding a subtask under an id that is not on the board changes nothing. */
  lemma AddSubtaskUnknownIsNoop(tasks: seq<Task>, id: string, subtaskId: string, title: string)
    requires !HasTask(tasks, id)
    ensures TasksWithSubtask(tasks, id, subtaskId, title) == tasks
  {
    var r := TasksWithSubtask(tasks, id, subtaskId, title);
    forall i | 0 <= i < |tasks| ensures r[i] == tasks[i] {
      assert r[i].(subtasks := tasks[i].subtasks) == tasks[i];
    }
  }

  /** Toggling under an id that is not on the board changes nothing. */
  lemma ToggleUnknownIsNoop(tasks: seq<Task>, id: string, subtaskId: string)
    requires !HasTask(tasks, id)
    ensures TasksWithToggled(tasks, id, subtaskId) == tasks
  {
    var r := TasksWithToggled(tasks, id, subtaskId);
    forall i | 0 <= i < |tasks| ensures r[i] == tasks[i] {
      assert r[i].(subtasks := tasks[i].subtasks) == tasks[i];
    }
  }

  /** Toggling the same subtask twice restores the checklist. */
  lemma {:induction false} ToggleSubtasksTwice(subtasks: seq<SubTask>, subtaskId: string)
    ensures ToggledSubtasks(ToggledSubtasks(subtasks, subtaskId), subtaskId) == subtasks
  {
    var once := ToggledSubtasks(subtasks, subtaskId);
    var twice := ToggledSubtasks(once, subtaskId);
    forall j | 0 <= j < |subtasks| ensures twice[j] == subtasks[j] {
      assert twice[j].(completed := once[j].completed) == once[j];
      assert once[j].(completed := subtasks[j].completed) == subtasks[j];
    }
  }

  /** Toggling the same subtask twice restores the whole board. */
  lemma {:induction false} ToggleSelfInverse(tasks: seq<Task>, id: string, subtaskId: string)
    ensures TasksWithToggled(TasksWithToggled(tasks, id, subtaskId), id, subtaskId) == tasks
  {
    var once := TasksWithToggled(tasks, id, subtaskId);
    var twice := TasksWithToggled(once, id, subtaskId);
    forall i | 0 <= i < |tasks| ensures twice[i] == tasks[i] {
      if tasks[i].id == id {
        ToggleSubtasksTwice(tasks[i].subtasks, subtaskId);
      }
      assert twice[i].(subtasks := once[i].subtasks) == once[i];
      assert once[i].(subtasks := tasks[i].subtasks) == tasks[i];
    }
  }

  /** Toggling keeps each checklist's length, ids, titles and order. */
  lemma ToggleKeepsChecklistShape(tasks: seq<Task>, id: string, subtaskId: string, i: int, j: int)
    requires 0 <= i < |tasks| && 0 <= j < |tasks[i].subtasks|
    ensures |TasksWithToggled(tasks, id, subtaskId)[i].subtasks| == |tasks[i].subtasks|
    ensures TasksWithToggled(tasks, id, subtaskId)[i].subtasks[j].id == tasks[i].subtasks[j].id
    ensures TasksWithToggled(tasks, id, subtaskId)[i].subtasks[j].title == tasks[i].subtasks[j].title
  {
    var r := TasksWithToggled(tasks, id, subtaskId);
    if tasks[i].id == id {
      var toggled := ToggledSubtasks(tasks[i].subtasks, subtaskId);
      assert toggled[j].(completed := tasks[i].subtasks[j].completed) == tasks[i].subtasks[j];
    }
  }

  /** Every task title and every subtask title holds a visible character. */
  predicate TitlesNotBlank(tasks: seq<Task>) {
    forall i :: 0 <= i < |tasks| ==> !IsBlank(tasks[i].title) && SubtaskTitlesNotBlank(tasks[i].subtasks)
  }

  predicate SubtaskTitlesNotBlank(subtasks: seq<SubTask>) {
    forall j :: 0 <= j < |subtasks| ==> !IsBlank(subtasks[j].title)
  }

  // The guards in the forms (non-blank, trimmed text only) are what keep
  // titles visible: every update, given such text, preserves the property.

  lemma AppendKeepsTitlesNotBlank(tasks: seq<Task>, draft: TaskDraft, id: string, suggestions: seq<string>)
    requires TitlesNotBlank(tasks)
    requires !IsBlank(draft.title) && SubtaskTitlesNotBlank(draft.subtasks)
    ensures TitlesNotBlank(AppendedTasks(tasks, draft, id, suggestions))
  {
    var r := AppendedTasks(tasks, draft, id, suggestions);
    assert forall i :: 0 <= i < |tasks| ==> r[i] == tasks[i];
  }

  lemma MoveKeepsTitlesNotBlank(tasks: seq<Task>, id: string, column: Column)
    requires TitlesNotBlank(tasks)
    ensures TitlesNotBlank(MovedTasks(tasks, id, column))
  {
    var r := MovedTasks(tasks, id, column);
    assert forall i :: 0 <= i < |tasks| ==> r[i].(column := tasks[i].column) == tasks[i];
  }

  lemma EditKeepsTitlesNotBlank(tasks: seq<Task>, id: string, title: string)
    requires TitlesNotBlank(tasks) && !IsBlank(title)
    ensures TitlesNotBlank(EditedTasks(tasks, id, title))
  {
    var r := EditedTasks(tasks, id, title);
    assert forall i :: 0 <= i < |tasks| ==> r[i].(title := tasks[i].title) == tasks[i];
  }

  lemma AddSubtaskKeepsTitlesNotBlank(tasks: seq<Task>, id: string, subtaskId: string, title: string)
    requires TitlesNotBlank(tasks) && !IsBlank(title)
    ensures TitlesNotBlank(TasksWithSubtask(tasks, id, subtaskId, title))
  {
    var r := TasksWithSubtask(tasks, id, subtaskId, title);
    forall i | 0 <= i < |tasks| ensures !IsBlank(r[i].title) && SubtaskTitlesNotBlank(r[i].subtasks) {
      assert r[i].(subtasks := tasks[i].subtasks) == tasks[i];
    }
  }

  lemma ToggleKeepsTitlesNotBlank(tasks: seq<Task>, id: string, subtaskId: string)
    requires TitlesNotBlank(tasks)
    ensures TitlesNotBlank(TasksWithToggled(tasks, id, subtaskId))
  {
    var r := TasksWithToggled(tasks, id, subtaskId);
    forall i | 0 <= i < |tasks| ensures !IsBlank(r[i].title) && SubtaskTitlesNotBlank(r[i].subtasks) {
      assert r[i].(subtasks := tasks[i].subtasks) == tasks[i];
      if tasks[i].id == id {
        var subs := ToggledSubtasks(tasks[i].subtasks, subtaskId);
        assert forall j :: 0 <= j < |subs| ==> subs[j].(completed := tasks[i].subtasks[j].completed) == tasks[i].subtasks[j];
      }
    }
  }

  /** The store behind the board page. */
  class TaskStore {
    var tasks: seq<Task>
    var loading: bool
    var modalOpen: bool

    constructor (saved: Option<string>, parse: string -> Option<seq<Task>>)
      ensures tasks == LoadTasks(saved, parse) && !loading && !modalOpen
    {
      tasks := LoadTasks(saved, parse);
      loading := false;
      modalOpen := false;
    }

    method SetModalOpen(open: bool)
      modifies this`modalOpen
      ensures modalOpen == open
    {
      modalOpen := open;
    }

    /** `addTask` up to its `await`: the loading flag goes up, nothing else changes. */
    method BeginAddTask()
      modifies this`loading
      ensures loading
    {
      loading := true;
    }

    /**
     * `addTask` after its `await`: the new task is appended to the list as it
     * is now (other updates may have run in between), the dialog closes and
     * the loading flag goes down.
     */
    method CompleteAddTask(draft: TaskDraft, id: string, suggestions: seq<string>)
      modifies this
      ensures tasks == AppendedTasks(old(tasks), draft, id, suggestions)
      ensures !modalOpen && !loading
    {
      tasks := AppendedTasks(tasks, draft, id, suggestions);
      modalOpen := false;
      loading := false;
    }

    /** `addTask` with nothing running in between: suggestions first, then one append. */
    method AddTask(draft: TaskDraft, id: string, apiKey: Option<string>, reply: AiService.ApiReply)
      modifies this
      ensures tasks == AppendedTasks(old(tasks), draft, id, AiService.GenerateTaskSuggestions(draft.title, apiKey, reply))
      ensures !modalOpen && !loading
    {
      BeginAddTask();
      var suggestions := AiService.GenerateTaskSuggestions(draft.title, apiKey, reply);
      CompleteAddTask(draft, id, suggestions);
    }

    method MoveTask(id: string, column: Column)
      modifies this`tasks
      ensures tasks == MovedTasks(old(tasks), id, column)
    {
      tasks := MovedTasks(tasks, id, column);
    }

    method EditTask(id: string, title: string)
      modifies this`tasks
      ensures tasks == EditedTasks(old(tasks), id, title)
    {
      tasks := EditedTasks(tasks, id, title);
    }

    method AddSubtask(id: string, subtaskId: string, title: string)
      modifies this`tasks
      ensures tasks == TasksWithSubtask(old(tasks), id, subtaskId, title)
    {
      tasks := TasksWithSubtask(tasks, id, subtaskId, title);
    }

    method ToggleSubtask(id: string, subtaskId: string)
      modifies this`tasks
      ensures tasks == TasksWithToggled(old(tasks), id, subtaskId)
    {
      tasks := TasksWithToggled(tasks, id, subtaskId);
    }
  }

  /** Creating "Write report" with high priority and no credential: a high-priority to-do task with the report tips. */
  lemma CreateReportScenario(tasks: seq<Task>, id: string, reply: AiService.ApiReply)
    ensures var r := AppendedTasks(tasks, TaskDraft("Write report", High, Done, []), id,
                                   AiService.GenerateTaskSuggestions("Write report", None, reply));
            r[|tasks|].priority == High && r[|tasks|].column == Todo && r[|tasks|].aiSuggestions == AiService.ReportTips
  {
    var clean := ToLower("Write report");
    assert clean == "write report";
    assert OccursAt(clean, "report", 6);
  }
}
