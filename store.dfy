/** The in-memory collection a command works on, between `readTasks` and `writeTasks`,
    with one method per command of the switch. Each method changes the collection the
    way the command's case does, or leaves it untouched when the case stops early with
    `process.exit(1)`. */
module Store {
  import opened Text
  import opened Tasks

  /** How a command ends: success, a refused argument, an id no task has, or the usage
      text (only for a command name the switch does not know). */
  datatype Outcome = Ok | ValidationError | NotFound | Help

  class TaskStore {
    /** The tasks in insertion order, as loaded from and saved to the task file. */
    var tasks: seq<Task>

    constructor (loaded: seq<Task>)
      ensures tasks == loaded
    {
      tasks := loaded;
    }

    /** `add`: the words joined and trimmed must not be empty; the new task, `todo`, with
        the next id and the two clock readings, goes at the end. */
    method Add(words: seq<string>, createdAt: Timestamp, updatedAt: Timestamp) returns (r: Outcome)
      modifies this
      ensures r == Ok || r == ValidationError
      ensures r == ValidationError <==> Description(words) == []
      ensures r == ValidationError ==> tasks == old(tasks)
      ensures r == Ok ==> tasks == old(tasks) + [Task(NextId(old(tasks)), Description(words), Todo, createdAt, updatedAt)]
      ensures r == Ok ==> !HasId(old(tasks), tasks[|tasks| - 1].id)
      ensures UniqueIds(old(tasks)) ==> UniqueIds(tasks)
    {
      var description := Description(words);
      if description == [] {
        return ValidationError;
      }
      var task := Task(NextId(tasks), description, Todo, createdAt, updatedAt);
      if UniqueIds(tasks) {
        AppendFreshKeepsUnique(tasks, task);
      }
      tasks := tasks + [task];
      r := Ok;
    }

    /** `update`: the id must be a non-zero number and the description non-empty, then the
        first task with that id gets the new description and timestamp; nothing else
        changes. */
    method Update(id: Number, words: seq<string>, updatedAt: Timestamp) returns (r: Outcome)
      modifies this
      ensures r == Ok || r == ValidationError || r == NotFound
      ensures r == ValidationError <==> !Truthy(id) || Description(words) == []
      ensures r == NotFound <==> Truthy(id) && Description(words) != [] && !HasId(old(tasks), id.value)
      ensures r != Ok ==> tasks == old(tasks)
      ensures r == Ok ==>
                FindIndex(old(tasks), id.value).Some? &&
                var i := FindIndex(old(tasks), id.value).value;
                tasks == old(tasks)[i := old(tasks)[i].(description := Description(words), updatedAt := updatedAt)]
      ensures UniqueIds(old(tasks)) ==> UniqueIds(tasks)
    {
      var description := Description(words);
      if !Truthy(id) || description == [] {
        return ValidationError;
      }
      var found := FindIndex(tasks, id.value);
      if found.None? {
        return NotFound;
      }
      var i := found.value;
      var task := tasks[i].(description := description, updatedAt := updatedAt);
      ReplaceKeepingId(tasks, i, task, id.value);
      tasks := tasks[i := task];
      r := Ok;
    }

    /** `delete`: the id must be a non-zero number; the first task with it is spliced
        out and the others keep their order. */
    method Delete(id: Number) returns (r: Outcome)
      modifies this
      ensures r == Ok || r == ValidationError || r == NotFound
      ensures r == ValidationError <==> !Truthy(id)
      ensures r == NotFound <==> Truthy(id) && !HasId(old(tasks), id.value)
      ensures r != Ok ==> tasks == old(tasks)
      ensures r == Ok ==>
                FindIndex(old(tasks), id.value).Some? &&
                var i := FindIndex(old(tasks), id.value).value;
                tasks == old(tasks)[..i] + old(tasks)[i + 1..]
      ensures UniqueIds(old(tasks)) ==> UniqueIds(tasks)
      ensures UniqueIds(old(tasks)) && r == Ok ==> !HasId(tasks, id.value)
    {
      if !Truthy(id) {
        return ValidationError;
      }
      var found := FindIndex(tasks, id.value);
      if found.None? {
        return NotFound;
      }
      var i := found.value;
      RemoveAt(tasks, i);
      tasks := tasks[..i] + tasks[i + 1..];
      r := Ok;
    }

    /** `mark-in-progress` and `mark-done`: the number is not checked for being non-zero,
        only looked up; the first task with it gets the status and timestamp. */
    method SetStatus(id: Number, status: string, updatedAt: Timestamp) returns (r: Outcome)
      modifies this
      ensures r == Ok || r == NotFound
      ensures r == NotFound <==> Lookup(old(tasks), id).None?
      ensures r == NotFound ==> tasks == old(tasks)
      ensures r == Ok ==>
                Lookup(old(tasks), id).Some? &&
                var i := Lookup(old(tasks), id).value;
                tasks == old(tasks)[i := old(tasks)[i].(status := status, updatedAt := updatedAt)]
      ensures UniqueIds(old(tasks)) ==> UniqueIds(tasks)
    {
      var found := Lookup(tasks, id);
      if found.None? {
        return NotFound;
      }
      var i := found.value;
      var task := tasks[i].(status := status, updatedAt := updatedAt);
      ReplaceKeepingId(tasks, i, task, id.value);
      tasks := tasks[i := task];
      r := Ok;
    }

    /** `list`: an empty filter (absent or `""`, both falsy) shows every task, any other
        shows the tasks whose status is exactly that text; one line per task shown. */
    method List(filter: string) returns (shown: seq<Task>, lines: seq<string>)
      ensures filter == [] ==> shown == tasks
      ensures filter != [] ==> shown == Filter(tasks, filter)
      ensures |lines| == |shown|
      ensures forall k :: 0 <= k < |lines| ==> lines[k] == RenderLine(shown[k])
    {
      if filter == [] { shown := tasks; } else { shown := Filter(tasks, filter); }
      lines := PrintLines(shown);
    }
  }

  /** `filtered.forEach(t => console.log(...))`: the lines printed, one per task, in order. */
  method PrintLines(shown: seq<Task>) returns (lines: seq<string>)
    ensures |lines| == |shown|
    ensures forall k :: 0 <= k < |lines| ==> lines[k] == RenderLine(shown[k])
  {
    lines := [];
    for k := 0 to |shown|
      invariant |lines| == k
      invariant forall j :: 0 <= j < k ==> lines[j] == RenderLine(shown[j])
    {
      lines := lines + [RenderLine(shown[k])];
    }
  }
}
