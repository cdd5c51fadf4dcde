/** The task store: the task file and the six commands that read it, change
    the list in memory and write the whole list back. Each command is proved
    against its specification in `Operations`. */
module Store {
  import opened Tasks
  import opened Operations

  /** What the task file holds: no file yet, a file that does not parse as
      a task list, or a task list. */
  datatype FileState = NoFile | Unparsable | Holds(tasks: seq<Task>)

  /** `readFile`: a missing or unparsable file reads as the empty list. */
  function ReadTasks(file: FileState): (r: seq<Task>)
    ensures file.Holds? ==> r == file.tasks
    ensures file.NoFile? || file.Unparsable? ==> r == []
  {
    if file.Holds? then file.tasks else []
  }

  /** The file after a command: replaced by what the command wrote, or left
      exactly as it was when the command wrote nothing. */
  function After(file: FileState, written: Option<seq<Task>>): FileState {
    if written.Some? then Holds(written.value) else file
  }

  /** `tasks.find(task => task.id === id)`, returning the position of the
      task found. */
  method FindTask(tasks: seq<Task>, id: string) returns (k: Option<nat>)
    ensures k.None? <==> forall j :: 0 <= j < |tasks| ==> tasks[j].id != id
    ensures k.Some? ==> k.value < |tasks| && tasks[k.value].id == id
    ensures k.Some? ==> forall j :: 0 <= j < k.value ==> tasks[j].id != id
    ensures k == FirstIndexOf(tasks, id)
  {
    var i := 0;
    while i < |tasks|
      invariant 0 <= i <= |tasks|
      invariant forall j :: 0 <= j < i ==> tasks[j].id != id
    {
      if tasks[i].id == id {
        return Some(i);
      }
      i := i + 1;
    }
    return None;
  }

  class TaskStore {
    var file: FileState

    constructor (initial: FileState)
      ensures file == initial
    {
      file := initial;
    }

    /** `readFile`: the list the file holds, or the empty list when there
        is no file or it does not parse. */
    function Load(): (r: seq<Task>)
      reads this
      ensures file.Holds? ==> r == file.tasks
      ensures !file.Holds? ==> r == []
    {
      ReadTasks(file)
    }

    /** `writeFile`: the whole list replaces the file, and reading it back
        gives the same list. */
    method Save(tasks: seq<Task>)
      modifies this
      ensures file == Holds(tasks)
      ensures Load() == tasks
    {
      file := Holds(tasks);
    }

    /** `addTask`: appends the new task to the list read and writes it back. */
    method Add(description: Option<string>, now: Instant) returns (r: Report)
      modifies this
      ensures var o := AddOutcome(old(Load()), description, now);
        r == o.report && file == After(old(file), o.written)
    {
      if Missing(description) {
        return MissingArgument;
      }
      var tasks := Load();
      var task := NewTask(tasks, description.value, now);
      tasks := tasks + [task];
      Save(tasks);
      r := Added(task.id);
    }

    /** `updateTask`: edits the task found in place and writes the list back. */
    method Update(id: Option<string>, description: Option<string>, now: Instant) returns (r: Report)
      modifies this
      ensures var o := UpdateOutcome(old(Load()), id, description, now);
        r == o.report && file == After(old(file), o.written)
    {
      if Missing(id) || Missing(description) {
        return MissingArgument;
      }
      var tasks := Load();
      var found := FindTask(tasks, id.value);
      if found.None? {
        return NotFound;
      }
      var k := found.value;
      tasks := tasks[k := tasks[k].(description := description.value)];
      tasks := tasks[k := tasks[k].(updatedAt := At(now))];
      Save(tasks);
      r := Updated(id.value);
    }

    /** `deleteTask`: writes the filtered list only if the filter dropped
        something. */
    method Delete(id: Option<string>) returns (r: Report)
      modifies this
      ensures var o := DeleteOutcome(old(Load()), id);
        r == o.report && file == After(old(file), o.written)
    {
      if Missing(id) {
        return MissingArgument;
      }
      var tasks := Load();
      var kept := WithoutId(tasks, id.value);
      if |tasks| == |kept| {
        return NotFound;
      }
      Save(kept);
      r := Deleted(id.value);
    }

    /** `listTasks`. */
    method List() returns (r: Report)
      ensures r == ListOutcome(Load()).report
      ensures r.NoTasks? <==> Load() == []
    {
      var tasks := Load();
      if |tasks| == 0 {
        return NoTasks;
      }
      r := Listing(tasks);
    }

    /** `changeTaskStatus`: validates the status, then edits the task found
        in place and writes the list back. */
    method ChangeStatus(id: Option<string>, status: Option<string>, now: Instant) returns (r: Report)
      modifies this
      ensures var o := ChangeStatusOutcome(old(Load()), id, status, now);
        r == o.report && file == After(old(file), o.written)
    {
      if Missing(id) || Missing(status) {
        return MissingArgument;
      }
      if !IsAllowedStatus(status.value) {
        return InvalidStatus;
      }
      var tasks := Load();
      var found := FindTask(tasks, id.value);
      if found.None? {
        return NotFound;
      }
      var k := found.value;
      tasks := tasks[k := tasks[k].(status := status.value)];
      tasks := tasks[k := tasks[k].(updatedAt := At(now))];
      Save(tasks);
      r := StatusChanged(id.value, status.value);
    }

    /** `listTasksByStatus`. */
    method ListByStatus(status: Option<string>) returns (r: Report)
      ensures r == ListByStatusOutcome(Load(), status).report
      ensures r.Listing? ==> forall t :: t in r.tasks ==> t in Load()
    {
      if Missing(status) {
        return MissingArgument;
      }
      var tasks := Load();
      var matching := WithStatus(tasks, status.value);
      if |matching| == 0 {
        return NoTasksWithStatus(status.value);
      }
      r := Listing(matching);
    }
  }
}
