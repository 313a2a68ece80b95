/**
 * The board page: it owns the task store, splits the list into the three
 * columns, and hands a dragged task over to the column it is dropped on.
 */
module IndexPage {
  import opened Wrappers
  import opened TaskCard
  import opened UseTasks

  /** The tasks shown in one column, in list order. */
  function ColumnTasks(tasks: seq<Task>, column: Column): (r: seq<Task>)
    ensures |r| <= |tasks|
    ensures forall i :: 0 <= i < |r| ==> r[i].column == column && r[i] in tasks
  {
    if tasks == [] then []
    else if tasks[0].column == column then [tasks[0]] + ColumnTasks(tasks[1..], column)
    else ColumnTasks(tasks[1..], column)
  }

  /** A task is shown in a column exactly when it is on the board with that column. */
  lemma {:induction false} ColumnTasksMembers(tasks: seq<Task>, column: Column, t: Task)
    ensures t in ColumnTasks(tasks, column) <==> t in tasks && t.column == column
  {
    if tasks != [] {
      ColumnTasksMembers(tasks[1..], column, t);
      assert tasks == [tasks[0]] + tasks[1..];
    }
  }

  /** `ColumnTasksMembers` for every task at once. */
  lemma ColumnTasksMembersAll(tasks: seq<Task>, column: Column)
    ensures forall t :: t in ColumnTasks(tasks, column) <==> t in tasks && t.column == column
  {
    forall t {
      ColumnTasksMembers(tasks, column, t);
    }
  }

  /** The filter keeps list order: filtering a concatenation concatenates the filtered parts. */
  lemma {:induction false} ColumnTasksAppend(a: seq<Task>, b: seq<Task>, column: Column)
    ensures ColumnTasks(a + b, column) == ColumnTasks(a, column) + ColumnTasks(b, column)
  {
    if a == [] {
      assert a + b == b;
    } else {
      assert (a + b)[1..] == a[1..] + b;
      ColumnTasksAppend(a[1..], b, column);
    }
  }

  /** The three columns together are as long as the board (see `ColumnTasksMembers` for which tasks each shows). */
  lemma {:induction false} ColumnsPartition(tasks: seq<Task>)
    ensures |ColumnTasks(tasks, Todo)| + |ColumnTasks(tasks, InProgress)| + |ColumnTasks(tasks, Done)| == |tasks|
  {
    if tasks != [] {
      ColumnsPartition(tasks[1..]);
    }
  }

  /** After a move, the moved tasks show in the target column and in no other. */
  lemma MovedTaskShowsInTarget(tasks: seq<Task>, id: string, column: Column, i: int)
    requires 0 <= i < |tasks| && tasks[i].id == id
    ensures MovedTasks(tasks, id, column)[i] in ColumnTasks(MovedTasks(tasks, id, column), column)
    ensures forall other :: other != column ==>
      MovedTasks(tasks, id, column)[i] !in ColumnTasks(MovedTasks(tasks, id, column), other)
  {
    var moved := MovedTasks(tasks, id, column);
    ColumnTasksMembers(moved, column, moved[i]);
    forall other | other != column ensures moved[i] !in ColumnTasks(moved, other) {
      ColumnTasksMembers(moved, other, moved[i]);
    }
  }

  /** The page's state besides the store: the task being dragged, if any. */
  class Board {
    const store: TaskStore
    var draggedTask: Option<Task>

    constructor (saved: Option<string>, parse: string -> Option<seq<Task>>)
      ensures fresh(store)
      ensures store.tasks == LoadTasks(saved, parse) && !store.loading && !store.modalOpen
      ensures draggedTask == None
    {
      store := new TaskStore(saved, parse);
      draggedTask := None;
    }

    /** The three column lists of the page: each shows exactly the board's tasks of that column. */
    function TodoTasks(): (r: seq<Task>)
      reads this, store
      ensures forall t :: t in r <==> t in store.tasks && t.column == Todo
    {
      ColumnTasksMembersAll(store.tasks, Todo);
      ColumnTasks(store.tasks, Todo)
    }

    function InProgressTasks(): (r: seq<Task>)
      reads this, store
      ensures forall t :: t in r <==> t in store.tasks && t.column == InProgress
    {
      ColumnTasksMembersAll(store.tasks, InProgress);
      ColumnTasks(store.tasks, InProgress)
    }

    function DoneTasks(): (r: seq<Task>)
      reads this, store
      ensures forall t :: t in r <==> t in store.tasks && t.column == Done
    {
      ColumnTasksMembersAll(store.tasks, Done);
      ColumnTasks(store.tasks, Done)
    }

    /** A card reports a drag: the page remembers that task. */
    method HandleDragStart(task: Task)
      modifies this`draggedTask
      ensures draggedTask == Some(task)
    {
      draggedTask := Some(task);
    }

    /**
     * A drop on a column: with a remembered task, move every task with its id
     * to that column and forget it; without one, nothing happens.
     */
    method HandleDrop(column: Column)
      modifies this`draggedTask, store`tasks
      ensures old(draggedTask).Some? ==> store.tasks == MovedTasks(old(store.tasks), old(draggedTask).value.id, column)
      ensures old(draggedTask).None? ==> store.tasks == old(store.tasks)
      ensures draggedTask == None
    {
      if draggedTask.Some? {
        store.MoveTask(draggedTask.value.id, column);
        draggedTask := None;
      }
    }
  }
}
