/** The client's task board (frontend/app/dashboard/board/page.tsx): three
    columns, adding a task, moving a task left or right, and a Viewer whose every
    change is refused with a warning toast. The component state (`tasks`,
    `newTaskTitle`, `showToast`) is the class `TaskBoard`; each handler is a method
    and the new values it sets are the pure functions below. */
module TaskBoard {
  import opened Common

  datatype Column = Todo | InProgress | Done

  datatype BoardTask = BoardTask(id: int, title: string, status: Column)

  /** The board's seeded tasks. */
  const InitialTasks := [
    BoardTask(1, "Design login page", Done),
    BoardTask(2, "Implement authentication", InProgress),
    BoardTask(3, "Add role-based access", Todo)
  ]

  // ---------------------------------------------------------------------------
  // Blank titles: JavaScript's String.prototype.trim

  /** The characters `trim()` removes: WhiteSpace and LineTerminator of ECMAScript. */
  predicate IsJsWhitespace(c: char)
  {
    var n := c as int;
    n == 0x09 || n == 0x0A || n == 0x0B || n == 0x0C || n == 0x0D || n == 0x20
    || n == 0xA0 || n == 0x1680 || (0x2000 <= n <= 0x200A) || n == 0x2028 || n == 0x2029
    || n == 0x202F || n == 0x205F || n == 0x3000 || n == 0xFEFF
  }

  function TrimStart(s: string): (r: string)
    ensures r == [] <==> forall i :: 0 <= i < |s| ==> IsJsWhitespace(s[i])
    ensures r != [] ==> !IsJsWhitespace(r[0])
  {
    if s == [] then []
    else if IsJsWhitespace(s[0]) then TrimStart(s[1..])
    else s
  }

  function TrimEnd(s: string): (r: string)
    ensures r == [] <==> forall i :: 0 <= i < |s| ==> IsJsWhitespace(s[i])
  {
    if s == [] then []
    else if IsJsWhitespace(s[|s| - 1]) then TrimEnd(s[..|s| - 1])
    else s
  }

  function Trim(s: string): string
  {
    TrimEnd(TrimStart(s))
  }

  /** `title.trim()` is truthy exactly when the title has a character that is not white space. */
  lemma TrimmedNonEmpty(s: string)
    ensures Trim(s) != [] <==> exists i :: 0 <= i < |s| && !IsJsWhitespace(s[i])
  {
    var front := TrimStart(s);
    if front != [] {
      assert !IsJsWhitespace(front[0]);
    }
  }

  // ---------------------------------------------------------------------------
  // The new values the handlers compute

  /** The board with a new `todo` task appended, numbered one past the board's length. */
  function AddTask(tasks: seq<BoardTask>, title: string): seq<BoardTask>
  {
    tasks + [BoardTask(|tasks| + 1, title, Todo)]
  }

  /** Every task with the id gets the new status; every other task is kept as it is. */
  function MoveTask(tasks: seq<BoardTask>, id: int, status: Column): (r: seq<BoardTask>)
    ensures |r| == |tasks|
    ensures forall i :: 0 <= i < |r| ==> r[i].id == tasks[i].id && r[i].title == tasks[i].title
    ensures forall i :: 0 <= i < |r| ==> r[i].status == if tasks[i].id == id then status else tasks[i].status
  {
    seq(|tasks|, i requires 0 <= i < |tasks| =>
      if tasks[i].id == id then tasks[i].(status := status) else tasks[i])
  }

  /** The column of a status: the tasks with that status, in board order. */
  function TasksByStatus(tasks: seq<BoardTask>, status: Column): (r: seq<BoardTask>)
    ensures |r| <= |tasks|
  {
    if tasks == [] then []
    else
      var last := tasks[|tasks| - 1];
      TasksByStatus(tasks[..|tasks| - 1], status) + (if last.status == status then [last] else [])
  }

  /** A column holds exactly the tasks with its status. */
  lemma {:induction false} ColumnHoldsItsStatus(tasks: seq<BoardTask>, status: Column)
    ensures forall t :: t in TasksByStatus(tasks, status) <==> t in tasks && t.status == status
  {
    if tasks != [] {
      var front := tasks[..|tasks| - 1];
      ColumnHoldsItsStatus(front, status);
      assert tasks == front + [tasks[|tasks| - 1]];
    }
  }

  /** The filter on a board with one more task at the end. */
  lemma ColumnSnoc(front: seq<BoardTask>, last: BoardTask, status: Column)
    ensures TasksByStatus(front + [last], status)
         == TasksByStatus(front, status) + (if last.status == status then [last] else [])
  {
    var tasks := front + [last];
    assert tasks[..|tasks| - 1] == front;
  }

  /** Filtering distributes over concatenation: a column lists its tasks in board order. */
  lemma {:induction false} ColumnKeepsOrder(a: seq<BoardTask>, b: seq<BoardTask>, status: Column)
    ensures TasksByStatus(a + b, status) == TasksByStatus(a, status) + TasksByStatus(b, status)
  {
    if b == [] {
      assert a + b == a;
    } else {
      var front := b[..|b| - 1];
      var last := b[|b| - 1];
      ColumnKeepsOrder(a, front, status);
      assert b == front + [last];
      assert a + b == (a + front) + [last];
      ColumnSnoc(a + front, last, status);
      ColumnSnoc(front, last, status);
    }
  }

  /** The target of a card's "Move Left" button; the To Do column has none. */
  function MoveLeftTarget(status: Column): Option<Column>
  {
    if status != Todo then Some(if status == InProgress then Todo else InProgress) else None
  }

  /** The target of a card's "Move Right" button; the Done column has none. */
  function MoveRightTarget(status: Column): Option<Column>
  {
    if status != Done then Some(if status == Todo then InProgress else Done) else None
  }

  function Rank(status: Column): nat
  {
    match status
    case Todo => 0
    case InProgress => 1
    case Done => 2
  }

  /** The buttons step one column at a time, and left undoes right. */
  lemma MoveButtonsStepOneColumn(status: Column)
    ensures MoveLeftTarget(status).Some? <==> Rank(status) > 0
    ensures MoveRightTarget(status).Some? <==> Rank(status) < 2
    ensures MoveLeftTarget(status).Some? ==> Rank(MoveLeftTarget(status).value) == Rank(status) - 1
    ensures MoveRightTarget(status).Some? ==> Rank(MoveRightTarget(status).value) == Rank(status) + 1
    ensures MoveRightTarget(status).Some? ==> MoveLeftTarget(MoveRightTarget(status).value) == Some(status)
    ensures MoveLeftTarget(status).Some? ==> MoveRightTarget(MoveLeftTarget(status).value) == Some(status)
  {
  }

  // ---------------------------------------------------------------------------
  // Properties of the board

  /** The tasks the three columns show between them. */
  function Shown(tasks: seq<BoardTask>): multiset<BoardTask>
  {
    multiset(TasksByStatus(tasks, Todo)) + multiset(TasksByStatus(tasks, InProgress))
    + multiset(TasksByStatus(tasks, Done))
  }

  /** A task added at the end shows in exactly one column. */
  lemma ShownSnoc(front: seq<BoardTask>, last: BoardTask)
    ensures Shown(front + [last]) == Shown(front) + multiset{last}
  {
    ColumnSnoc(front, last, Todo);
    ColumnSnoc(front, last, InProgress);
    ColumnSnoc(front, last, Done);
  }

  /** Every task is shown in exactly one column: the three columns hold all tasks
      between them. */
  lemma {:induction false} ColumnsPartitionBoard(tasks: seq<BoardTask>)
    ensures Shown(tasks) == multiset(tasks)
    ensures |TasksByStatus(tasks, Todo)| + |TasksByStatus(tasks, InProgress)| + |TasksByStatus(tasks, Done)| == |tasks|
  {
    if tasks != [] {
      var front := tasks[..|tasks| - 1];
      var last := tasks[|tasks| - 1];
      ColumnsPartitionBoard(front);
      assert tasks == front + [last];
      ShownSnoc(front, last);
    }
  }

  /** Ids `1..n` in order, as the seeded board has them. */
  predicate SequentialIds(tasks: seq<BoardTask>)
  {
    forall i :: 0 <= i < |tasks| ==> tasks[i].id == i + 1
  }

  /** Adding keeps ids sequential and gives the new task an id nobody has. */
  lemma AddTaskKeepsIds(tasks: seq<BoardTask>, title: string)
    requires SequentialIds(tasks)
    ensures SequentialIds(AddTask(tasks, title))
    ensures forall t :: t in tasks ==> t.id != |tasks| + 1
  {
  }

  /** After a move, the moved task shows in its target column and nowhere else. */
  lemma MovedTaskShowsInTarget(tasks: seq<BoardTask>, id: int, status: Column, other: Column)
    requires other != status
    ensures forall t :: t in tasks && t.id == id ==> t.(status := status) in TasksByStatus(MoveTask(tasks, id, status), status)
    ensures forall t :: t in TasksByStatus(MoveTask(tasks, id, status), other) ==> t.id != id
  {
    var moved := MoveTask(tasks, id, status);
    ColumnHoldsItsStatus(moved, status);
    ColumnHoldsItsStatus(moved, other);
    forall t | t in tasks && t.id == id
      ensures t.(status := status) in TasksByStatus(moved, status)
    {
      var i :| 0 <= i < |tasks| && tasks[i] == t;
      assert moved[i] == t.(status := status);
    }
    forall t | t in TasksByStatus(moved, other) ensures t.id != id {
      var i :| 0 <= i < |moved| && moved[i] == t;
    }
  }

  /** Moving is idempotent, and moving back restores the board. */
  lemma MoveTaskRoundTrip(tasks: seq<BoardTask>, id: int, status: Column, back: Column)
    requires forall t :: t in tasks && t.id == id ==> t.status == back
    ensures MoveTask(MoveTask(tasks, id, status), id, status) == MoveTask(tasks, id, status)
    ensures MoveTask(MoveTask(tasks, id, status), id, back) == tasks
  {
    var once := MoveTask(tasks, id, status);
    var back2 := MoveTask(once, id, back);
    forall i | 0 <= i < |tasks| ensures back2[i] == tasks[i] {
      assert tasks[i] in tasks;
    }
  }

  // ---------------------------------------------------------------------------
  // The component

  class TaskBoard {
    const isViewer: bool
    var tasks: seq<BoardTask>
    var newTaskTitle: string
    var showToast: bool

    ghost predicate Valid()
      reads this
    {
      SequentialIds(tasks)
    }

    constructor(role: Option<Role>)
      ensures isViewer == (role == Some(Viewer))
      ensures tasks == InitialTasks && newTaskTitle == "" && !showToast
      ensures Valid()
    {
      isViewer := role == Some(Viewer);
      tasks := InitialTasks;
      newTaskTitle := "";
      showToast := false;
    }

    method HandleAddTask()
      requires Valid()
      modifies this
      ensures Valid()
      ensures isViewer ==> tasks == old(tasks) && newTaskTitle == old(newTaskTitle) && showToast
      ensures !isViewer && Trim(old(newTaskTitle)) == [] ==> unchanged(this)
      ensures !isViewer && Trim(old(newTaskTitle)) != [] ==>
        && tasks == AddTask(old(tasks), old(newTaskTitle))
        && newTaskTitle == "" && showToast == old(showToast)
        && forall t :: t in old(tasks) ==> t.id != tasks[|tasks| - 1].id
    {
      if isViewer {
        showToast := true;
        return;
      }
      if Trim(newTaskTitle) != [] {
        AddTaskKeepsIds(tasks, newTaskTitle);
        var newTask := BoardTask(|tasks| + 1, newTaskTitle, Todo);
        tasks := tasks + [newTask];
        newTaskTitle := "";
      }
    }

    method HandleMoveTask(id: int, status: Column)
      requires Valid()
      modifies this
      ensures Valid()
      ensures isViewer ==> tasks == old(tasks) && showToast
      ensures !isViewer ==> tasks == MoveTask(old(tasks), id, status) && showToast == old(showToast)
      ensures newTaskTitle == old(newTaskTitle)
    {
      if isViewer {
        showToast := true;
        return;
      }
      tasks := MoveTask(tasks, id, status);
    }

    /** The title input's `onClick`: a Viewer is warned, nobody else notices. */
    method HandleTitleClick()
      modifies this
      ensures tasks == old(tasks) && newTaskTitle == old(newTaskTitle)
      ensures showToast == (old(showToast) || isViewer)
    {
      if isViewer {
        showToast := true;
      }
    }

    /** The toast's `onClose`. */
    method DismissToast()
      modifies this
      ensures tasks == old(tasks) && newTaskTitle == old(newTaskTitle) && !showToast
    {
      showToast := false;
    }

    /** The title input's `onChange`. */
    method HandleTitleChange(value: string)
      modifies this
      ensures tasks == old(tasks)
      ensures isViewer ==> newTaskTitle == old(newTaskTitle) && showToast
      ensures !isViewer ==> newTaskTitle == value && showToast == old(showToast)
    {
      if isViewer {
        showToast := true;
        return;
      }
      newTaskTitle := value;
    }
  }
}
