/** The command dispatcher: picks one store command from the argument list
    by its first word, ignoring case, and runs it. */
module Cli {
  import opened Text
  import opened Tasks
  import opened Operations
  import opened Store

  datatype Command =
    | ShowUsage
    | AddCmd(description: Option<string>)
    | UpdateCmd(id: Option<string>, description: Option<string>)
    | DeleteCmd(id: Option<string>)
    | ListCmd
    | ChangeStatusCmd(id: Option<string>, status: Option<string>)
    | ListStatusCmd(status: Option<string>)
    | Unknown

  /** The command words, in lower case. */
  const CommandNames: seq<string> := ["add", "update", "delete", "list", "changestatus", "liststatus"]

  /** `args[i]`, which is `undefined` past the end of the list. */
  function Arg(args: seq<string>, i: nat): (a: Option<string>)
    ensures a.Some? <==> i < |args|
    ensures a.Some? ==> a.value == args[i]
  {
    if i < |args| then Some(args[i]) else None
  }

  /** The `switch` on `args[0].toLowerCase()`. */
  function Parse(args: seq<string>): (c: Command)
    ensures c.ShowUsage? <==> args == []
    ensures c.Unknown? <==> args != [] && Lower(args[0]) !in CommandNames
    ensures c.AddCmd? <==> args != [] && Lower(args[0]) == "add"
    ensures c.UpdateCmd? <==> args != [] && Lower(args[0]) == "update"
    ensures c.DeleteCmd? <==> args != [] && Lower(args[0]) == "delete"
    ensures c.ListCmd? <==> args != [] && Lower(args[0]) == "list"
    ensures c.ChangeStatusCmd? <==> args != [] && Lower(args[0]) == "changestatus"
    ensures c.ListStatusCmd? <==> args != [] && Lower(args[0]) == "liststatus"
    ensures c.AddCmd? ==> c.description == Arg(args, 1)
    ensures c.UpdateCmd? ==> c.id == Arg(args, 1) && c.description == Arg(args, 2)
    ensures c.DeleteCmd? ==> c.id == Arg(args, 1)
    ensures c.ChangeStatusCmd? ==> c.id == Arg(args, 1) && c.status == Arg(args, 2)
    ensures c.ListStatusCmd? ==> c.status == Arg(args, 1)
  {
    if args == [] then ShowUsage
    else
      var name := Lower(args[0]);
      if name == "add" then AddCmd(Arg(args, 1))
      else if name == "update" then UpdateCmd(Arg(args, 1), Arg(args, 2))
      else if name == "delete" then DeleteCmd(Arg(args, 1))
      else if name == "list" then ListCmd
      else if name == "changestatus" then ChangeStatusCmd(Arg(args, 1), Arg(args, 2))
      else if name == "liststatus" then ListStatusCmd(Arg(args, 1))
      else Unknown
  }

  /** The command word is matched ignoring case: argument lists that differ
      only in the case of the command word parse alike. */
  lemma {:induction false} ParseIgnoresCommandCase(a: seq<string>, b: seq<string>)
    requires a != [] && b != [] && a[1..] == b[1..]
    requires |a[0]| == |b[0]|
    requires forall i :: 0 <= i < |a[0]| ==> LowerChar(a[0][i]) == LowerChar(b[0][i])
    ensures Parse(a) == Parse(b)
  {
    LowerIgnoresCase(a[0], b[0]);
    forall i | 1 <= i < |a|
      ensures Arg(a, i) == Arg(b, i)
    {
      assert a[i] == a[1..][i - 1];
    }
  }

  /** What a parsed command does to the list it reads. Only add, update,
      delete and changestatus can write; usage and an unknown command do
      nothing but report. */
  function Exec(c: Command, tasks: seq<Task>, now: Instant): (o: Outcome)
    ensures o.written.Some? ==> c.AddCmd? || c.UpdateCmd? || c.DeleteCmd? || c.ChangeStatusCmd?
    ensures c.ShowUsage? ==> o.report == UsageShown
    ensures c.Unknown? ==> o.report == InvalidCommand
  {
    match c
    case ShowUsage => Outcome(UsageShown, None)
    case AddCmd(description) => AddOutcome(tasks, description, now)
    case UpdateCmd(id, description) => UpdateOutcome(tasks, id, description, now)
    case DeleteCmd(id) => DeleteOutcome(tasks, id)
    case ListCmd => ListOutcome(tasks)
    case ChangeStatusCmd(id, status) => ChangeStatusOutcome(tasks, id, status, now)
    case ListStatusCmd(status) => ListByStatusOutcome(tasks, status)
    case Unknown => Outcome(InvalidCommand, None)
  }

  /** `runTodoCLI`: with no arguments or an unknown command word the file is
      not touched. */
  method Run(store: TaskStore, args: seq<string>, now: Instant) returns (r: Report)
    modifies store
    ensures var o := Exec(Parse(args), old(store.Load()), now);
      r == o.report && store.file == After(old(store.file), o.written)
    ensures args == [] || Lower(args[0]) !in CommandNames ==> store.file == old(store.file)
  {
    match Parse(args)
    case ShowUsage =>
      r := UsageShown;
    case AddCmd(description) =>
      r := store.Add(description, now);
    case UpdateCmd(id, description) =>
      r := store.Update(id, description, now);
    case DeleteCmd(id) =>
      r := store.Delete(id);
    case ListCmd =>
      r := store.List();
    case ChangeStatusCmd(id, status) =>
      r := store.ChangeStatus(id, status, now);
    case ListStatusCmd(status) =>
      r := store.ListByStatus(status);
    case Unknown =>
      r := InvalidCommand;
  }

  /** How the five command lines of the session below parse. */
  lemma ExampleParses()
    ensures Parse(["add", "buy milk"]) == AddCmd(Some("buy milk"))
    ensures Parse(["changestatus", "1", "done"]) == ChangeStatusCmd(Some("1"), Some("done"))
    ensures Parse(["liststatus", "done"]) == ListStatusCmd(Some("done"))
    ensures Parse(["delete", "1"]) == DeleteCmd(Some("1"))
    ensures Parse(["list"]) == ListCmd
  {
    LowerKeepsLowercase("add");
    LowerKeepsLowercase("changestatus");
    LowerKeepsLowercase("liststatus");
    LowerKeepsLowercase("delete");
    LowerKeepsLowercase("list");
  }

  /** What the five command lines of the session below do, each to the list
      the previous one left. Every command line is a process of its own, so
      each reads the clock afresh: `t1` is the add's, `t2` the status
      change's, and so on. */
  lemma ExampleSteps(t1: Instant, t2: Instant, t3: Instant, t4: Instant, t5: Instant)
    ensures
      var added := Task("1", "buy milk", JustAdded, t1, Unset);
      var done := Task("1", "buy milk", "done", t1, At(t2));
      Exec(Parse(["add", "buy milk"]), [], t1) == Outcome(Added("1"), Some([added])) &&
      Exec(Parse(["changestatus", "1", "done"]), [added], t2) == Outcome(StatusChanged("1", "done"), Some([done])) &&
      Exec(Parse(["liststatus", "done"]), [done], t3) == Outcome(Listing([done]), None) &&
      Exec(Parse(["delete", "1"]), [done], t4) == Outcome(Deleted("1"), Some([])) &&
      Exec(Parse(["list"]), [], t5) == Outcome(NoTasks, None)
  {
    var added := Task("1", "buy milk", JustAdded, t1, Unset);
    var done := Task("1", "buy milk", "done", t1, At(t2));
    ExampleParses();
    assert Decimal(1) == "1";
    assert IsAllowedStatus("done") by {
      LowerKeepsLowercase("done");
    }
    assert FirstIndexOf([added], "1") == Some(0);
    assert [added][0 := done] == [done];
    assert WithStatus([done], "done") == [done];
    assert WithoutId([done], "1") == [];
  }

  /** A session starting from no file: add "buy milk", mark it done, list
      the done tasks, delete it, list everything, each command line at its
      own instant. The task listed keeps the add's instant as `createdAt`
      and has the status change's instant as `updatedAt`. */
  method ExampleSession(t1: Instant, t2: Instant, t3: Instant, t4: Instant, t5: Instant)
    returns (reports: seq<Report>, last: FileState)
    ensures reports == [
      Added("1"),
      StatusChanged("1", "done"),
      Listing([Task("1", "buy milk", "done", t1, At(t2))]),
      Deleted("1"),
      NoTasks]
    ensures last == Holds([])
  {
    ExampleSteps(t1, t2, t3, t4, t5);
    var store := new TaskStore(NoFile);
    var r1 := Run(store, ["add", "buy milk"], t1);
    var r2 := Run(store, ["changestatus", "1", "done"], t2);
    var r3 := Run(store, ["liststatus", "done"], t3);
    var r4 := Run(store, ["delete", "1"], t4);
    var r5 := Run(store, ["list"], t5);
    reports := [r1, r2, r3, r4, r5];
    last := store.file;
  }
}
