/** The task list (TaskList.tsx): the list operations `addTask`, `toggleTask`,
    `deleteTask` and `editTask` as functions on the task sequence, the list component's
    state (tasks, the new-task input, the adding flag) and one task row's edit state. */
module TaskList {
  import opened Js

  /** `createdAt` is the moment of creation in milliseconds, supplied by the caller. */
  datatype Task = Task(id: string, text: string, completed: bool, createdAt: int)

  /** `addTask`: a blank input adds nothing; otherwise one open task with the trimmed text
      goes in front of the existing ones, which keep their order. */
  function AddTask(tasks: seq<Task>, input: string, id: string, now: int): (r: seq<Task>)
    ensures AllWhitespace(input) ==> r == tasks
    ensures !AllWhitespace(input) ==> |r| == |tasks| + 1 && r[1..] == tasks
    ensures !AllWhitespace(input) ==> r[0] == Task(id, Trim(input), false, now) && r[0].text != ""
  {
    TrimEmptyIff(input);
    if Trim(input) == "" then tasks else [Task(id, Trim(input), false, now)] + tasks
  }

  /** `toggleTask`: every task carrying `id` has its flag flipped; nothing else changes. */
  function ToggleTask(tasks: seq<Task>, id: string): (r: seq<Task>)
    ensures |r| == |tasks|
    ensures forall i :: 0 <= i < |tasks| ==>
      r[i].id == tasks[i].id && r[i].text == tasks[i].text && r[i].createdAt == tasks[i].createdAt
    ensures forall i :: 0 <= i < |tasks| ==>
      r[i].completed == if tasks[i].id == id then !tasks[i].completed else tasks[i].completed
  {
    seq(|tasks|, i requires 0 <= i < |tasks| =>
      if tasks[i].id == id then tasks[i].(completed := !tasks[i].completed) else tasks[i])
  }

  /** Toggling twice restores the list. */
  lemma ToggleTwice(tasks: seq<Task>, id: string)
    ensures ToggleTask(ToggleTask(tasks, id), id) == tasks
  {
    var r := ToggleTask(ToggleTask(tasks, id), id);
    assert forall i :: 0 <= i < |tasks| ==> r[i] == tasks[i];
  }

  /** `deleteTask`: the `filter` that keeps the tasks not carrying `id`. */
  function DeleteTask(tasks: seq<Task>, id: string): (r: seq<Task>)
    ensures |r| <= |tasks|
    ensures forall t :: t in r <==> t in tasks && t.id != id
  {
    if tasks == [] then []
    else
      var rest := DeleteTask(tasks[..|tasks| - 1], id);
      var last := tasks[|tasks| - 1];
      assert tasks == tasks[..|tasks| - 1] + [last];
      if last.id == id then rest else rest + [last]
  }

  /** How many tasks carry `id`. */
  function CountId(tasks: seq<Task>, id: string): nat
  {
    if tasks == [] then 0
    else CountId(tasks[..|tasks| - 1], id) + (if tasks[|tasks| - 1].id == id then 1 else 0)
  }

  /** Deleting keeps the survivors in their relative order and removes exactly as many
      tasks as carry the id. */
  lemma {:induction false} DeleteKeepsOrder(tasks: seq<Task>, id: string)
    ensures IsSubsequence(DeleteTask(tasks, id), tasks)
    ensures |DeleteTask(tasks, id)| == |tasks| - CountId(tasks, id)
    decreases |tasks|
  {
    if tasks != [] {
      var init := tasks[..|tasks| - 1];
      DeleteKeepsOrder(init, id);
      var rest := DeleteTask(init, id);
      if tasks[|tasks| - 1].id != id {
        assert (rest + [tasks[|tasks| - 1]])[..|rest|] == rest;
      }
    }
  }

  /** Deleting an id nobody carries changes nothing, and deleting twice is deleting once. */
  lemma {:induction false} DeleteAbsentIsIdentity(tasks: seq<Task>, id: string)
    requires forall t :: t in tasks ==> t.id != id
    ensures DeleteTask(tasks, id) == tasks
    decreases |tasks|
  {
    if tasks != [] {
      DeleteAbsentIsIdentity(tasks[..|tasks| - 1], id);
      assert tasks == tasks[..|tasks| - 1] + [tasks[|tasks| - 1]];
    }
  }

  lemma DeleteIdempotent(tasks: seq<Task>, id: string)
    ensures DeleteTask(DeleteTask(tasks, id), id) == DeleteTask(tasks, id)
  {
    DeleteAbsentIsIdentity(DeleteTask(tasks, id), id);
  }

  /** `editTask`: every task carrying `id` gets the new text; nothing else changes. */
  function EditTask(tasks: seq<Task>, id: string, newText: string): (r: seq<Task>)
    ensures |r| == |tasks|
    ensures forall i :: 0 <= i < |tasks| ==>
      r[i].id == tasks[i].id && r[i].completed == tasks[i].completed && r[i].createdAt == tasks[i].createdAt
    ensures forall i :: 0 <= i < |tasks| ==>
      r[i].text == if tasks[i].id == id then newText else tasks[i].text
  {
    seq(|tasks|, i requires 0 <= i < |tasks| =>
      if tasks[i].id == id then tasks[i].(text := newText) else tasks[i])
  }

  /** `completedCount`: the length of `tasks.filter(t => t.completed)`. */
  function CompletedCount(tasks: seq<Task>): (n: nat)
    ensures n <= |tasks|
  {
    if tasks == [] then 0
    else CompletedCount(tasks[..|tasks| - 1]) + (if tasks[|tasks| - 1].completed then 1 else 0)
  }

  /** The "remaining" figure: the length of `tasks.filter(t => !t.completed)`. */
  function RemainingCount(tasks: seq<Task>): nat
  {
    if tasks == [] then 0
    else RemainingCount(tasks[..|tasks| - 1]) + (if tasks[|tasks| - 1].completed then 0 else 1)
  }

  /** Completed and remaining tasks together are all the tasks. */
  lemma {:induction false} CountsPartition(tasks: seq<Task>)
    ensures CompletedCount(tasks) + RemainingCount(tasks) == |tasks|
    decreases |tasks|
  {
    if tasks != [] {
      CountsPartition(tasks[..|tasks| - 1]);
    }
  }

  /** Toggling a task whose id is unique moves exactly one task between the two counts. */
  lemma {:induction false} ToggleUniqueMovesOne(tasks: seq<Task>, id: string, k: int)
    requires 0 <= k < |tasks| && tasks[k].id == id
    requires forall i :: 0 <= i < |tasks| && i != k ==> tasks[i].id != id
    ensures CompletedCount(ToggleTask(tasks, id)) ==
      if tasks[k].completed then CompletedCount(tasks) - 1 else CompletedCount(tasks) + 1
    decreases |tasks|
  {
    var r := ToggleTask(tasks, id);
    var n := |tasks| - 1;
    assert r[..n] == ToggleTask(tasks[..n], id);
    if k < n {
      ToggleUniqueMovesOne(tasks[..n], id, k);
    } else {
      ToggleAbsentIsIdentity(tasks[..n], id);
    }
  }

  lemma {:induction false} ToggleAbsentIsIdentity(tasks: seq<Task>, id: string)
    requires forall i :: 0 <= i < |tasks| ==> tasks[i].id != id
    ensures ToggleTask(tasks, id) == tasks
  {
    assert forall i :: 0 <= i < |tasks| ==> ToggleTask(tasks, id)[i] == tasks[i];
  }

  /** The progress bar's width in percent, exact: zero for an empty list, at most 100. */
  function ProgressPercentage(tasks: seq<Task>): (p: real)
    ensures 0.0 <= p <= 100.0
    ensures tasks == [] ==> p == 0.0
    ensures p == 100.0 <==> tasks != [] && CompletedCount(tasks) == |tasks|
  {
    if |tasks| > 0 then (CompletedCount(tasks) as real / |tasks| as real) * 100.0 else 0.0
  }

  /** The list component's state. */
  class TaskListView {
    var tasks: seq<Task>
    var newTaskText: string
    var isAdding: bool

    constructor (initial: seq<Task>)
      ensures tasks == initial && newTaskText == "" && !isAdding
    {
      tasks, newTaskText, isAdding := initial, "", false;
    }

    /** The typed text of the new-task input. */
    method SetNewTaskText(text: string)
      modifies this`newTaskText
      ensures newTaskText == text
    {
      newTaskText := text;
    }

    method StartAdding()
      modifies this`isAdding
      ensures isAdding
    {
      isAdding := true;
    }

    /** `addTask`, with the id and clock supplied: a blank input leaves everything as it
      was; otherwise the task is added, the input cleared and adding mode left. */
    method Add(id: string, now: int)
      modifies this
      ensures tasks == AddTask(old(tasks), old(newTaskText), id, now)
      ensures AllWhitespace(old(newTaskText)) ==> newTaskText == old(newTaskText) && isAdding == old(isAdding)
      ensures !AllWhitespace(old(newTaskText)) ==> newTaskText == "" && !isAdding
    {
      var blank := IsBlank(newTaskText);
      if !blank {
        ghost var added := AddTask(tasks, newTaskText, id, now);
        tasks := [Task(id, Trim(newTaskText), false, now)] + tasks;
        assert tasks == [added[0]] + added[1..];
        newTaskText := "";
        isAdding := false;
      }
    }

    /** The cancel button of the add row, and Escape in the input: clear and close. */
    method CancelAdding()
      modifies this`newTaskText, this`isAdding
      ensures newTaskText == "" && !isAdding
    {
      newTaskText := "";
      isAdding := false;
    }

    /** A key in the new-task input: Enter adds, Escape cancels, other keys do nothing. */
    method KeyPress(key: string, id: string, now: int)
      modifies this
      ensures key == "Enter" ==> tasks == AddTask(old(tasks), old(newTaskText), id, now)
      ensures key == "Enter" && AllWhitespace(old(newTaskText)) ==>
        newTaskText == old(newTaskText) && isAdding == old(isAdding)
      ensures key == "Enter" && !AllWhitespace(old(newTaskText)) ==> newTaskText == "" && !isAdding
      ensures key == "Escape" ==> tasks == old(tasks) && newTaskText == "" && !isAdding
      ensures key != "Enter" && key != "Escape" ==>
        tasks == old(tasks) && newTaskText == old(newTaskText) && isAdding == old(isAdding)
    {
      if key == "Enter" {
        Add(id, now);
      } else if key == "Escape" {
        CancelAdding();
      }
    }

    method Toggle(id: string)
      modifies this`tasks
      ensures tasks == ToggleTask(old(tasks), id)
    {
      tasks := ToggleTask(tasks, id);
    }

    method Delete(id: string)
      modifies this`tasks
      ensures tasks == DeleteTask(old(tasks), id)
    {
      tasks := DeleteTask(tasks, id);
    }

    method Edit(id: string, newText: string)
      modifies this`tasks
      ensures tasks == EditTask(old(tasks), id, newText)
    {
      tasks := EditTask(tasks, id, newText);
    }
  }

  /** The call a row makes to `onEdit`. */
  datatype EditCall = EditCall(id: string, newText: string)

  /** The decision in `handleEdit`: a call only for a non-blank buffer that differs from the
      task's text, carrying the trimmed buffer. */
  function EditRequest(task: Task, editText: string): (r: Option<EditCall>)
    ensures r.Some? <==> !AllWhitespace(editText) && editText != task.text
    ensures r.Some? ==> r.value.id == task.id && r.value.newText == Trim(editText) && r.value.newText != ""
  {
    TrimEmptyIff(editText);
    if Trim(editText) != "" && editText != task.text then Some(EditCall(task.id, Trim(editText)))
    else None
  }

  /** An edit request applied to the list gives the row's task a non-blank text that
      neither starts nor ends with whitespace, and touches no other field. */
  lemma EditRequestApplied(tasks: seq<Task>, k: int, editText: string)
    requires 0 <= k < |tasks|
    requires EditRequest(tasks[k], editText).Some?
    ensures var c := EditRequest(tasks[k], editText).value;
      var r := EditTask(tasks, c.id, c.newText);
      && r[k].text != "" && !IsWhitespace(r[k].text[0]) && !IsWhitespace(r[k].text[|r[k].text| - 1])
      && r[k].completed == tasks[k].completed && r[k].id == tasks[k].id
  {
    var c := EditRequest(tasks[k], editText).value;
    var t := Trim(editText);
    assert c.id == tasks[k].id && c.newText == t && t != "";
    assert !IsWhitespace(t[0]) && !IsWhitespace(t[|t| - 1]);
    assert EditTask(tasks, c.id, c.newText)[k].text == t;
  }

  /** One task row's editing state. */
  class TaskItem {
    var task: Task
    var isEditing: bool
    var editText: string

    constructor (t: Task)
      ensures task == t && !isEditing && editText == t.text
    {
      task := t;
      isEditing, editText := false, t.text;
    }

    /** The parent re-renders the row (same `key`, so the same component) with the task as
        it now stands in the list, for instance after `editTask`; the row's own state
        survives. */
    method ReceiveTask(t: Task)
      modifies this`task
      ensures task == t && isEditing == old(isEditing) && editText == old(editText)
    {
      task := t;
    }

    method StartEditing()
      modifies this`isEditing
      ensures isEditing
    {
      isEditing := true;
    }

    method SetEditText(text: string)
      modifies this`editText
      ensures editText == text
    {
      editText := text;
    }

    /** `handleEdit`: maybe one call to `onEdit`, and edit mode is always left. */
    method HandleEdit() returns (call: Option<EditCall>)
      modifies this`isEditing
      ensures call == EditRequest(task, editText)
      ensures !isEditing
    {
      TrimEmptyIff(editText);
      if Trim(editText) != "" && editText != task.text {
        call := Some(EditCall(task.id, Trim(editText)));
      } else {
        call := None;
      }
      isEditing := false;
    }

    /** `handleCancel`: the buffer goes back to the task's text and edit mode is left. */
    method HandleCancel()
      modifies this`isEditing, this`editText
      ensures editText == task.text && !isEditing
    {
      editText := task.text;
      isEditing := false;
    }

    /** A key in the edit input: Enter confirms, Escape cancels. */
    method KeyPress(key: string) returns (call: Option<EditCall>)
      modifies this`isEditing, this`editText
      ensures key == "Enter" ==> call == old(EditRequest(task, editText)) && !isEditing && editText == old(editText)
      ensures key == "Escape" ==> call == None && editText == task.text && !isEditing
      ensures key != "Enter" && key != "Escape" ==>
        call == None && editText == old(editText) && isEditing == old(isEditing)
    {
      call := None;
      if key == "Enter" {
        call := HandleEdit();
      } else if key == "Escape" {
        HandleCancel();
      }
    }
  }

  /** A row edits "a" to " b ", the parent applies the edit and re-renders the row with the
      new task, and a later edit started and cancelled with Escape restores "b", the text
      the row now shows, not the text it was created with. */
  method EditThenCancelScenario() returns (call: Option<EditCall>, buffer: string)
    ensures call == Some(EditCall("1", "b"))
    ensures buffer == "b"
  {
    var tasks := [Task("1", "a", false, 0)];
    var row := new TaskItem(tasks[0]);
    row.StartEditing();
    row.SetEditText(" b ");
    call := row.KeyPress("Enter");
    assert !IsWhitespace(" b "[1]);
    PaddedEditTrims();
    tasks := EditTask(tasks, call.value.id, call.value.newText);
    row.ReceiveTask(tasks[0]);
    row.StartEditing();
    var none := row.KeyPress("Escape");
    buffer := row.editText;
  }

  lemma PaddedEditTrims()
    ensures Trim(" b ") == "b"
  {
    var padded, start := " b ", "b ";
    assert TrimStart(padded) == start by {
      assert TrimStart(start) == start by { assert !IsWhitespace(start[0]); }
      assert IsWhitespace(padded[0]) && padded[1..] == start;
    }
    assert TrimEnd(start) == "b" by {
      assert TrimEnd("b") == "b" by { assert !IsWhitespace("b"[0]); }
      assert IsWhitespace(start[1]) && start[..1] == "b";
    }
  }
}
