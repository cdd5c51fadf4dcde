/** What each of the six tracker commands does to the task list it has just
    read: the message it reports and the list it writes back, if it writes
    at all. These functions specify the store's methods (store.dfy). */
module Operations {
  import opened Text
  import opened Tasks

  /** The message a command prints, without its wording. */
  datatype Report =
    | Added(id: string)
    | Updated(id: string)
    | Deleted(id: string)
    | StatusChanged(id: string, status: string)
    | Listing(tasks: seq<Task>)
    | NoTasks
    | NoTasksWithStatus(status: string)
    | MissingArgument
    | NotFound
    | InvalidStatus
    | UsageShown
    | InvalidCommand

  /** A command's report and the whole list it writes, or `None` when it
      writes nothing. */
  datatype Outcome = Outcome(report: Report, written: Option<seq<Task>>)

  /** `addTask`. */
  function AddOutcome(tasks: seq<Task>, description: Option<string>, now: Instant): (o: Outcome)
    ensures o.written.None? <==> Missing(description)
    ensures o.written.None? ==> o.report == MissingArgument
    ensures o.written.Some? ==> |o.written.value| == |tasks| + 1
    ensures o.written.Some? ==>
      var w := o.written.value;
      var t := w[|tasks|];
      w[..|tasks|] == tasks &&
      t.id == Decimal(|tasks| + 1) &&
      AllDigits(t.id) && DigitsValue(t.id) == |tasks| + 1 &&
      t.description == description.value && t.status == JustAdded &&
      t.createdAt == now && t.updatedAt == Unset &&
      o.report == Added(t.id)
  {
    if Missing(description) then Outcome(MissingArgument, None)
    else
      var t := NewTask(tasks, description.value, now);
      assert (tasks + [t])[..|tasks|] == tasks;
      Outcome(Added(t.id), Some(tasks + [t]))
  }

  /** `updateTask`. */
  function UpdateOutcome(tasks: seq<Task>, id: Option<string>, description: Option<string>, now: Instant): (o: Outcome)
    ensures o.written.None? <==> Missing(id) || Missing(description) || !HasId(tasks, id.value)
    ensures Missing(id) || Missing(description) ==> o.report == MissingArgument
    ensures !Missing(id) && !Missing(description) && !HasId(tasks, id.value) ==> o.report == NotFound
    ensures o.written.Some? ==>
      var w := o.written.value;
      var k := FirstIndexOf(tasks, id.value).value;
      |w| == |tasks| &&
      (forall j :: 0 <= j < |w| && j != k ==> w[j] == tasks[j]) &&
      w[k] == tasks[k].(description := description.value, updatedAt := At(now)) &&
      o.report == Updated(id.value)
  {
    if Missing(id) || Missing(description) then Outcome(MissingArgument, None)
    else
      match FirstIndexOf(tasks, id.value)
      case None => Outcome(NotFound, None)
      case Some(k) =>
        var t := tasks[k].(description := description.value, updatedAt := At(now));
        Outcome(Updated(id.value), Some(tasks[k := t]))
  }

  /** `deleteTask`: the filter drops every task of that id; "not found" is
      detected by the filter leaving the length unchanged. */
  function DeleteOutcome(tasks: seq<Task>, id: Option<string>): (o: Outcome)
    ensures o.written.None? <==> Missing(id) || !HasId(tasks, id.value)
    ensures Missing(id) ==> o.report == MissingArgument
    ensures !Missing(id) && !HasId(tasks, id.value) ==> o.report == NotFound
    ensures o.written.Some? ==>
      o.written.value == WithoutId(tasks, id.value) &&
      |o.written.value| < |tasks| &&
      o.report == Deleted(id.value)
  {
    if Missing(id) then Outcome(MissingArgument, None)
    else
      var kept := WithoutId(tasks, id.value);
      WithoutIdLength(tasks, id.value);
      if |kept| == |tasks| then Outcome(NotFound, None)
      else Outcome(Deleted(id.value), Some(kept))
  }

  /** `listTasks`: never writes; shows every task, or says there are none. */
  function ListOutcome(tasks: seq<Task>): (o: Outcome)
    ensures o.written.None?
    ensures tasks == [] ==> o.report == NoTasks
    ensures tasks != [] ==> o.report == Listing(tasks)
  {
    if |tasks| == 0 then Outcome(NoTasks, None) else Outcome(Listing(tasks), None)
  }

  /** `changeTaskStatus`: the arguments are checked first, then the status
      (in lower case), and only then is the id looked up. */
  function ChangeStatusOutcome(tasks: seq<Task>, id: Option<string>, status: Option<string>, now: Instant): (o: Outcome)
    ensures o.written.None? <==>
      Missing(id) || Missing(status) || !IsAllowedStatus(status.value) || !HasId(tasks, id.value)
    ensures Missing(id) || Missing(status) ==> o.report == MissingArgument
    ensures !Missing(id) && !Missing(status) && !IsAllowedStatus(status.value) ==> o.report == InvalidStatus
    ensures !Missing(id) && !Missing(status) && IsAllowedStatus(status.value) && !HasId(tasks, id.value) ==>
      o.report == NotFound
    ensures o.written.Some? ==>
      var w := o.written.value;
      var k := FirstIndexOf(tasks, id.value).value;
      |w| == |tasks| &&
      (forall j :: 0 <= j < |w| && j != k ==> w[j] == tasks[j]) &&
      w[k] == tasks[k].(status := status.value, updatedAt := At(now)) &&
      o.report == StatusChanged(id.value, status.value)
  {
    if Missing(id) || Missing(status) then Outcome(MissingArgument, None)
    else if !IsAllowedStatus(status.value) then Outcome(InvalidStatus, None)
    else
      match FirstIndexOf(tasks, id.value)
      case None => Outcome(NotFound, None)
      case Some(k) =>
        var t := tasks[k].(status := status.value, updatedAt := At(now));
        Outcome(StatusChanged(id.value, status.value), Some(tasks[k := t]))
  }

  /** `listTasksByStatus`: never writes; shows the tasks whose status matches
      the query ignoring case, in store order. */
  function ListByStatusOutcome(tasks: seq<Task>, status: Option<string>): (o: Outcome)
    ensures o.written.None?
    ensures Missing(status) <==> o.report == MissingArgument
    ensures !Missing(status) ==>
      (o.report.NoTasksWithStatus? <==> forall t :: t in tasks ==> Lower(t.status) != Lower(status.value))
    ensures !Missing(status) && WithStatus(tasks, status.value) != [] ==>
      o.report == Listing(WithStatus(tasks, status.value))
    ensures o.report.NoTasksWithStatus? ==> o.report.status == status.value
  {
    if Missing(status) then Outcome(MissingArgument, None)
    else
      var matching := WithStatus(tasks, status.value);
      if |matching| == 0 then Outcome(NoTasksWithStatus(status.value), None)
      else
        assert matching[0] in matching;
        Outcome(Listing(matching), None)
  }

  /** A status change followed by a listing under any spelling of the same
      status shows the changed task; the stored status keeps the caller's
      spelling. */
  lemma ChangedTaskIsListedByStatus(
    tasks: seq<Task>, id: string, status: string, query: string, now: Instant)
    requires ChangeStatusOutcome(tasks, Some(id), Some(status), now).written.Some?
    requires Lower(query) == Lower(status) && query != ""
    ensures
      var w := ChangeStatusOutcome(tasks, Some(id), Some(status), now).written.value;
      var k := FirstIndexOf(tasks, id).value;
      w[k].status == status &&
      ListByStatusOutcome(w, Some(query)).report.Listing? &&
      w[k] in ListByStatusOutcome(w, Some(query)).report.tasks
  {
    var w := ChangeStatusOutcome(tasks, Some(id), Some(status), now).written.value;
    var k := FirstIndexOf(tasks, id).value;
    assert w[k] in w;
    assert w[k] in WithStatus(w, query);
  }

  /** An update edits only the first of several tasks sharing an id. */
  lemma UpdateLeavesLaterDuplicates(
    tasks: seq<Task>, id: string, description: string, now: Instant, earlier: nat, later: nat)
    requires earlier < later < |tasks|
    requires tasks[earlier].id == id && tasks[later].id == id
    requires id != "" && description != ""
    ensures UpdateOutcome(tasks, Some(id), Some(description), now).written.Some?
    ensures UpdateOutcome(tasks, Some(id), Some(description), now).written.value[later] == tasks[later]
  {
    assert HasId(tasks, id);
    var k := FirstIndexOf(tasks, id).value;
    assert k < later;
  }
}
