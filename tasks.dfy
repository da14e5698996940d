/** The task API (backend/routes/api/tasks.py): list, create, replace by id and
    delete by id over the stored task list, with 404 when the id is absent. The
    JSON file is the field `TaskStore.tasks`. */
module Tasks {
  import opened Common

  datatype TaskStatus = Pending | InProgress | Done

  /** The request body (the `Task` schema, whose `id` is optional and ignored). */
  datatype TaskBody = TaskBody(id: Option<int>, title: string, assignedTo: string, status: TaskStatus)

  /** A stored task. */
  datatype Task = Task(id: int, title: string, assignedTo: string, status: TaskStatus)

  /** The stored form of a request body: its fields under the given id. */
  function WithId(body: TaskBody, id: int): Task
  {
    Task(id, body.title, body.assignedTo, body.status)
  }

  predicate HasIdOf(id: int, t: Task)
  {
    t.id == id
  }

  function HasId(id: int): Task -> bool
  {
    t => HasIdOf(id, t)
  }

  predicate Stored(tasks: seq<Task>, id: int)
  {
    exists i :: 0 <= i < |tasks| && tasks[i].id == id
  }

  predicate UniqueIds(tasks: seq<Task>)
  {
    forall i, j :: 0 <= i < j < |tasks| ==> tasks[i].id != tasks[j].id
  }

  // ---------------------------------------------------------------------------
  // Specifications

  /** The list after `update_task(id, body)`: the first task with that id is
      replaced by the body under the path id; nothing else changes. */
  function Updated(tasks: seq<Task>, id: int, body: TaskBody): (r: seq<Task>)
    ensures |r| == |tasks|
    ensures !Stored(tasks, id) ==> r == tasks
    ensures Stored(tasks, id) ==> exists i ::
      && 0 <= i < |tasks| && tasks[i].id == id && (forall j :: 0 <= j < i ==> tasks[j].id != id)
      && r[i] == WithId(body, id)
      && forall j :: 0 <= j < |tasks| && j != i ==> r[j] == tasks[j]
  {
    match FindFirst(tasks, HasId(id))
    case None => tasks
    case Some(i) => tasks[i := WithId(body, id)]
  }

  /** The list after `delete_task(id)`: the first task with that id is removed and
      the others keep their order. */
  function Deleted(tasks: seq<Task>, id: int): (r: seq<Task>)
    ensures !Stored(tasks, id) ==> r == tasks
    ensures Stored(tasks, id) ==> |r| == |tasks| - 1 && exists i ::
      && 0 <= i < |tasks| && tasks[i].id == id && (forall j :: 0 <= j < i ==> tasks[j].id != id)
      && (forall j :: 0 <= j < i ==> r[j] == tasks[j])
      && (forall j :: i <= j < |r| ==> r[j] == tasks[j + 1])
  {
    match FindFirst(tasks, HasId(id))
    case None => tasks
    case Some(i) => tasks[..i] + tasks[i + 1..]
  }

  /** `create_task` as written: the body is appended under the id `len(tasks) + 1`. */
  function CreatedAsWritten(tasks: seq<Task>, body: TaskBody): seq<Task>
  {
    tasks + [WithId(body, |tasks| + 1)]
  }

  /** Deleting the task just created restores the list, provided its id was not
      already in use. */
  lemma CreateThenDeleteRestores(tasks: seq<Task>, body: TaskBody)
    requires !Stored(tasks, |tasks| + 1)
    ensures Deleted(CreatedAsWritten(tasks, body), |tasks| + 1) == tasks
  {
    var id := |tasks| + 1;
    FindFirstAppend(tasks, [WithId(body, id)], HasId(id));
    assert HasId(id)([WithId(body, id)][0]);
    assert forall j :: 0 <= j < |tasks| ==> !HasId(id)(tasks[j]);
    assert (tasks + [WithId(body, id)])[..|tasks|] == tasks;
  }

  /** Updating a stored task and reading it back gives the body under the path id. */
  lemma UpdateThenFind(tasks: seq<Task>, id: int, body: TaskBody)
    requires UniqueIds(tasks) && Stored(tasks, id)
    ensures UniqueIds(Updated(tasks, id, body))
    ensures forall t :: t in Updated(tasks, id, body) && t.id == id ==> t == WithId(body, id)
  {
  }

  // ---------------------------------------------------------------------------
  // Ids: as written and as intended

  /** Ids are `len(tasks) + 1`, so a delete followed by a create can hand out an id
      that is still in use. */
  lemma IdRepeatsAfterDelete(body: TaskBody)
    ensures var tasks := [WithId(body, 1), WithId(body, 2)];
      var afterDelete := Deleted(tasks, 1);
      UniqueIds(tasks) && !UniqueIds(CreatedAsWritten(afterDelete, body))
  {
    var tasks := [WithId(body, 1), WithId(body, 2)];
    assert HasId(1)(tasks[0]);
    assert Deleted(tasks, 1) == [WithId(body, 2)];
    var afterCreate := CreatedAsWritten(Deleted(tasks, 1), body);
    assert afterCreate[0] == WithId(body, 2) && afterCreate[1] == WithId(body, 2);
  }

  function MaxId(tasks: seq<Task>): (m: int)
    ensures forall t :: t in tasks ==> t.id <= m
    ensures m >= 0
  {
    if tasks == [] then 0
    else
      var rest := MaxId(tasks[..|tasks| - 1]);
      var last := tasks[|tasks| - 1].id;
      assert tasks == tasks[..|tasks| - 1] + [tasks[|tasks| - 1]];
      if last > rest then last else rest
  }

  /** Creation with an id above every stored one, which keeps ids unique. */
  function CreateFresh(tasks: seq<Task>, body: TaskBody): (r: seq<Task>)
    ensures r == tasks + [WithId(body, MaxId(tasks) + 1)]
    ensures !Stored(tasks, MaxId(tasks) + 1)
    ensures UniqueIds(tasks) ==> UniqueIds(r)
  {
    var r := tasks + [WithId(body, MaxId(tasks) + 1)];
    assert forall i :: 0 <= i < |tasks| ==> tasks[i] in tasks;
    r
  }

  /** Ids `1..n` in order: what a store that has only ever been appended to holds. */
  predicate SequentialIds(tasks: seq<Task>)
  {
    forall i :: 0 <= i < |tasks| ==> tasks[i].id == i + 1
  }

  lemma {:induction false} MaxIdOfSequential(tasks: seq<Task>)
    requires SequentialIds(tasks)
    ensures MaxId(tasks) == |tasks|
  {
    if tasks != [] {
      MaxIdOfSequential(tasks[..|tasks| - 1]);
    }
  }

  /** Until a task is deleted, the corrected creation hands out the same ids as the
      code as written, and ids stay sequential. */
  lemma CreateFreshAgreesWhileSequential(tasks: seq<Task>, body: TaskBody)
    requires SequentialIds(tasks)
    ensures CreateFresh(tasks, body) == CreatedAsWritten(tasks, body)
    ensures SequentialIds(CreateFresh(tasks, body))
  {
    MaxIdOfSequential(tasks);
  }

  // ---------------------------------------------------------------------------
  // The stored list

  class TaskStore {
    var tasks: seq<Task>

    constructor(tasks: seq<Task>)
      ensures this.tasks == tasks
    {
      this.tasks := tasks;
    }

    method GetTasks() returns (r: seq<Task>)
      ensures r == tasks
    {
      r := tasks;
    }

    /** `create_task` with the corrected id: one above every stored id. */
    method Create(body: TaskBody) returns (t: Task)
      modifies this
      ensures t == WithId(body, MaxId(old(tasks)) + 1)
      ensures tasks == old(tasks) + [t]
      ensures UniqueIds(old(tasks)) ==> UniqueIds(tasks)
    {
      tasks := CreateFresh(tasks, body);
      t := tasks[|tasks| - 1];
    }

    method Update(id: int, body: TaskBody) returns (r: Result<Task, HttpError>)
      modifies this
      ensures r == if Stored(old(tasks), id) then Ok(WithId(body, id)) else Err(NotFound)
      ensures tasks == Updated(old(tasks), id, body)
    {
      var idx := 0;
      while idx < |tasks|
        invariant 0 <= idx <= |tasks|
        invariant tasks == old(tasks)
        invariant forall j :: 0 <= j < idx ==> !HasId(id)(tasks[j])
      {
        if tasks[idx].id == id {
          var updatedTask := WithId(body, id);
          tasks := tasks[idx := updatedTask];
          return Ok(updatedTask);
        }
        idx := idx + 1;
      }
      r := Err(NotFound);
    }

    method Delete(id: int) returns (r: Outcome<HttpError>)
      modifies this
      ensures r == if Stored(old(tasks), id) then Pass else Fail(NotFound)
      ensures tasks == Deleted(old(tasks), id)
    {
      var idx := 0;
      while idx < |tasks|
        invariant 0 <= idx <= |tasks|
        invariant tasks == old(tasks)
        invariant forall j :: 0 <= j < idx ==> !HasId(id)(tasks[j])
      {
        if tasks[idx].id == id {
          tasks := tasks[..idx] + tasks[idx + 1..];
          return Pass;
        }
        idx := idx + 1;
      }
      r := Fail(NotFound);
    }
  }
}
