/**
 * The task records, the checklist progress shown on a card, and the card's
 * own editing state. The callbacks a card receives (`onEditTask`,
 * `onAddSubtask`, `onDragStart`) are modelled by returning the arguments the
 * card would pass to them, or None when it would not call them.
 */
module TaskCard {
  import opened Wrappers
  import opened Text

  datatype Priority = High | Medium | Low

  datatype Column = Todo | InProgress | Done

  datatype SubTask = SubTask(id: string, title: string, completed: bool)

  datatype Task = Task(
    id: string,
    title: string,
    priority: Priority,
    aiSuggestions: seq<string>,
    column: Column,
    subtasks: seq<SubTask>)

  /** What a caller supplies to create a task: a task without `id` and `aiSuggestions`. */
  datatype TaskDraft = TaskDraft(title: string, priority: Priority, column: Column, subtasks: seq<SubTask>)

  /** The number of checked subtasks. */
  function CompletedCount(subtasks: seq<SubTask>): (n: nat)
    ensures n <= |subtasks|
    ensures n == |subtasks| <==> forall i :: 0 <= i < |subtasks| ==> subtasks[i].completed
    ensures n == 0 <==> forall i :: 0 <= i < |subtasks| ==> !subtasks[i].completed
  {
    if subtasks == [] then 0
    else
      var rest := CompletedCount(subtasks[1..]);
      assert forall i :: 1 <= i < |subtasks| ==> subtasks[i] == subtasks[1..][i - 1];
      (if subtasks[0].completed then 1 else 0) + rest
  }

  /** Counting is additive: the ticked items of a concatenation are those of each part. */
  lemma {:induction false} CompletedCountAppend(a: seq<SubTask>, b: seq<SubTask>)
    ensures CompletedCount(a + b) == CompletedCount(a) + CompletedCount(b)
  {
    if a == [] {
      assert a + b == b;
    } else {
      assert (a + b)[1..] == a[1..] + b;
      CompletedCountAppend(a[1..], b);
    }
  }

  /** A single item counts 1 when ticked and 0 otherwise. */
  lemma CompletedCountSingle(s: SubTask)
    ensures CompletedCount([s]) == if s.completed then 1 else 0
  {
  }

  /** Integer division stays below `k` when the dividend is below `k` divisors. */
  lemma DivBelow(a: nat, d: nat, k: nat)
    requires 0 < d && a < k * d
    ensures a / d < k
  {
    var q := a / d;
    assert q * d <= a;
    if q >= k {
      MulMonotone(k, q, d);
    }
  }

  /** Integer division reaches `k` when the dividend holds `k` divisors. */
  lemma DivAtLeast(a: nat, d: nat, k: nat)
    requires 0 < d && k * d <= a
    ensures a / d >= k
  {
    var q := a / d;
    assert a < (q + 1) * d;
    if q + 1 <= k {
      MulMonotone(q + 1, k, d);
    }
  }

  lemma MulMonotone(x: nat, y: nat, d: nat)
    requires x <= y
    ensures x * d <= y * d
  {
  }

  /**
   * `Math.round(completed / total * 100)`, in exact arithmetic: round half up
   * of 100 * completed / total.
   */
  function RoundedPercent(completed: nat, total: nat): (p: nat)
    requires 0 < total && completed <= total
    ensures p <= 100
    ensures completed == total ==> p == 100
    ensures completed == 0 ==> p == 0
    ensures total * (2 * p - 1) <= 200 * completed < total * (2 * p + 1)
  {
    RoundedPercentBounds(completed, total);
    NearestInteger(completed, total);
    (200 * completed + total) / (2 * total)
  }

  /** The range and end points of the rounded percentage. */
  lemma RoundedPercentBounds(completed: nat, total: nat)
    requires 0 < total && completed <= total
    ensures var p := (200 * completed + total) / (2 * total);
      p <= 100 && (completed == total ==> p == 100) && (completed == 0 ==> p == 0)
  {
    var a := 200 * completed + total;
    DivBelow(a, 2 * total, 101);
    if completed == total {
      DivAtLeast(a, 2 * total, 100);
    } else if completed == 0 {
      DivBelow(a, 2 * total, 1);
    }
  }

  /** Halving the divisor's excess: `(200c + n) / 2n` is 100c/n rounded to the nearest integer, halves up. */
  lemma NearestInteger(completed: nat, total: nat)
    requires 0 < total
    ensures var p := (200 * completed + total) / (2 * total);
      total * (2 * p - 1) <= 200 * completed < total * (2 * p + 1)
  {
    var a := 200 * completed + total;
    var d := 2 * total;
    var p := a / d;
    var q := a % d;
    assert a == p * d + q && 0 <= q < d;
    assert p * d == total * (2 * p);
    assert total * (2 * p - 1) == total * (2 * p) - total;
    assert total * (2 * p + 1) == total * (2 * p) + total;
  }

  /** The progress bar's value: 0 for an empty checklist, the rounded percentage of checked items otherwise. */
  function ProgressPercentage(subtasks: seq<SubTask>): (p: nat)
    ensures p <= 100
    ensures subtasks == [] ==> p == 0
    ensures subtasks != [] && (forall i :: 0 <= i < |subtasks| ==> subtasks[i].completed) ==> p == 100
    ensures (forall i :: 0 <= i < |subtasks| ==> !subtasks[i].completed) ==> p == 0
  {
    if |subtasks| > 0 then RoundedPercent(CompletedCount(subtasks), |subtasks|) else 0
  }

  /** With fewer than 200 items, an unfinished checklist never shows 100%. */
  lemma {:induction false} UnfinishedBelowHundred(completed: nat, total: nat)
    requires completed < total < 200
    ensures RoundedPercent(completed, total) < 100
  {
    DivBelow(200 * completed + total, 2 * total, 100);
  }

  /** With 200 items or more, rounding can show 100% before the last item is checked. */
  lemma RoundingReachesHundredEarly()
    ensures RoundedPercent(199, 200) == 100
  {
  }

  /** With at most 200 items, one checked item already shows a non-zero percentage. */
  lemma {:induction false} StartedAboveZero(completed: nat, total: nat)
    requires 0 < completed <= total <= 200
    ensures RoundedPercent(completed, total) > 0
  {
    DivAtLeast(200 * completed + total, 2 * total, 1);
  }

  /** The local state of one rendered card. */
  class Card {
    const task: Task
    var isEditing: bool
    var newTitle: string
    var newSubtask: string
    var isAddingSubtask: bool

    constructor (task: Task)
      ensures this.task == task
      ensures !isEditing && newTitle == task.title && newSubtask == "" && !isAddingSubtask
    {
      this.task := task;
      isEditing := false;
      newTitle := task.title;
      newSubtask := "";
      isAddingSubtask := false;
    }

    /** The card can be dragged only while neither the title nor a new subtask is being edited. */
    predicate Draggable()
      reads this
    {
      !isEditing && !isAddingSubtask
    }

    /** The pen button. */
    method StartEditing()
      modifies this`isEditing
      ensures isEditing
    {
      isEditing := true;
    }

    /** Typing in the title field. */
    method SetNewTitle(text: string)
      modifies this`newTitle
      ensures newTitle == text
    {
      newTitle := text;
    }

    /**
     * The save button: a blank title is ignored; otherwise the trimmed title
     * is passed on with the task's id and edit mode ends.
     */
    method HandleEditSave() returns (call: Option<(string, string)>)
      modifies this`isEditing
      ensures call.Some? <==> !IsBlank(newTitle)
      ensures call.Some? ==> call.value == (task.id, Trim(newTitle)) && !isEditing
      ensures call.Some? ==> !IsBlank(call.value.1)
      ensures call.None? ==> isEditing == old(isEditing)
    {
      var trimmed := Trim(newTitle);
      if trimmed != "" {
        TrimmedNotBlank(newTitle);
        call := Some((task.id, trimmed));
        isEditing := false;
      } else {
        call := None;
      }
    }

    /** The "Add Subtask" button. */
    method StartAddingSubtask()
      modifies this`isAddingSubtask
      ensures isAddingSubtask
    {
      isAddingSubtask := true;
    }

    /** Typing in the new-subtask field. */
    method SetNewSubtask(text: string)
      modifies this`newSubtask
      ensures newSubtask == text
    {
      newSubtask := text;
    }

    /**
     * The subtask "Add" button: a blank entry is ignored; otherwise the
     * trimmed title is passed on with the task's id, the field is cleared and
     * the entry row closes.
     */
    method HandleAddSubtask() returns (call: Option<(string, string)>)
      modifies this`newSubtask, this`isAddingSubtask
      ensures call.Some? <==> !IsBlank(old(newSubtask))
      ensures call.Some? ==> call.value == (task.id, Trim(old(newSubtask)))
      ensures call.Some? ==> !IsBlank(call.value.1)
      ensures call.Some? ==> newSubtask == "" && !isAddingSubtask
      ensures call.None? ==> newSubtask == old(newSubtask) && isAddingSubtask == old(isAddingSubtask)
    {
      var trimmed := Trim(newSubtask);
      if trimmed != "" {
        TrimmedNotBlank(newSubtask);
        call := Some((task.id, trimmed));
        newSubtask := "";
        isAddingSubtask := false;
      } else {
        call := None;
      }
    }

    /** A drag gesture on the card: the task is handed to the page only when the card is draggable. */
    method HandleDragStart() returns (dragged: Option<Task>)
      ensures dragged.Some? <==> Draggable()
      ensures dragged.Some? <==> !isEditing && !isAddingSubtask
      ensures dragged.Some? ==> dragged.value == task
    {
      if Draggable() {
        dragged := Some(task);
      } else {
        dragged := None;
      }
    }
  }
}
