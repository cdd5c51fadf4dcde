/** The task record and the pure operations on a list of tasks that the
    tracker's commands are built from: the search for a task by id, the
    filter that drops an id, the case-insensitive filter on status, and the
    construction of a freshly added task. */
module Tasks {
  import opened Text

  /** A clock reading. The tracker captures one per process and uses it for
      every timestamp that process writes. */
  type Instant = nat

  /** `updated_at`: empty until the task is first changed. */
  datatype Stamp = Unset | At(instant: Instant)

  datatype Task = Task(
    id: string,
    description: string,
    status: string,
    createdAt: Instant,
    updatedAt: Stamp)

  /** A command-line argument, which may be absent. */
  datatype Option<T> = None | Some(value: T)

  /** JavaScript's `!arg` on a string argument: `undefined` and the empty
      string are falsy, every other string is truthy. */
  function Missing(arg: Option<string>): (m: bool)
    ensures arg.None? ==> m
    ensures arg.Some? ==> (m <==> |arg.value| == 0)
  {
    arg.None? || arg.value == ""
  }

  /** The status every new task starts with. */
  const JustAdded: string := "just_add"

  /** The statuses a status change accepts, compared in lower case. */
  const AllowedStatuses: seq<string> := ["just_add", "in_progress", "done"]

  /** `preDefinedStatus.includes(status.toLowerCase())`. */
  function IsAllowedStatus(status: string): (b: bool)
    ensures b <==> Lower(status) == "just_add" || Lower(status) == "in_progress" || Lower(status) == "done"
    ensures b ==> |status| > 0
  {
    Lower(status) in AllowedStatuses
  }

  predicate HasId(tasks: seq<Task>, id: string) {
    exists j :: 0 <= j < |tasks| && tasks[j].id == id
  }

  /** `Array.prototype.find` on the id: the position of the FIRST task whose
      id is `id`, if any. */
  function FirstIndexOf(tasks: seq<Task>, id: string): (r: Option<nat>)
    ensures r.None? <==> !HasId(tasks, id)
    ensures r.Some? ==> r.value < |tasks| && tasks[r.value].id == id
    ensures r.Some? ==> forall j :: 0 <= j < r.value ==> tasks[j].id != id
  {
    if tasks == [] then None
    else if tasks[0].id == id then Some(0)
    else
      match FirstIndexOf(tasks[1..], id)
      case None => None
      case Some(k) => Some(k + 1)
  }

  /** How many tasks carry the id `id`. */
  function CountId(tasks: seq<Task>, id: string): (n: nat)
    ensures n <= |tasks|
    ensures n == 0 <==> !HasId(tasks, id)
  {
    if tasks == [] then 0
    else (if tasks[0].id == id then 1 else 0) + CountId(tasks[1..], id)
  }

  /** `tasks.filter(task => task.id !== id)`: every task whose id differs. */
  function WithoutId(tasks: seq<Task>, id: string): (r: seq<Task>)
    ensures |r| <= |tasks|
    ensures forall t {:trigger t in r} :: t in r <==> t in tasks && t.id != id
  {
    if tasks == [] then []
    else if tasks[0].id == id then WithoutId(tasks[1..], id)
    else [tasks[0]] + WithoutId(tasks[1..], id)
  }

  /** The filter drops exactly as many tasks as carry the id. */
  lemma {:induction false} WithoutIdLength(tasks: seq<Task>, id: string)
    ensures |WithoutId(tasks, id)| + CountId(tasks, id) == |tasks|
  {
    if tasks != [] {
      WithoutIdLength(tasks[1..], id);
    }
  }

  /** One step of the filter: the first task is kept or dropped, then the
      rest is filtered. */
  lemma WithoutIdStep(tasks: seq<Task>, id: string)
    requires tasks != []
    ensures WithoutId(tasks, id) == (if tasks[0].id == id then [] else [tasks[0]]) + WithoutId(tasks[1..], id)
  {
    if tasks[0].id == id {
      assert [] + WithoutId(tasks[1..], id) == WithoutId(tasks[1..], id);
    }
  }

  /** Filtering a concatenation filters each part and keeps them in order;
      with `WithoutIdKeepsUnmatched` this says the filter keeps the surviving
      tasks in their original order. */
  lemma {:induction false} WithoutIdAppend(a: seq<Task>, b: seq<Task>, id: string)
    ensures WithoutId(a + b, id) == WithoutId(a, id) + WithoutId(b, id)
  {
    if a == [] {
      assert a + b == b;
    } else {
      var head := if a[0].id == id then [] else [a[0]];
      assert (a + b)[0] == a[0] && (a + b)[1..] == a[1..] + b;
      WithoutIdStep(a + b, id);
      WithoutIdStep(a, id);
      WithoutIdAppend(a[1..], b, id);
      assert head + (WithoutId(a[1..], id) + WithoutId(b, id)) == (head + WithoutId(a[1..], id)) + WithoutId(b, id);
    }
  }

  /** A list with no task of that id passes through the filter unchanged. */
  lemma {:induction false} WithoutIdKeepsUnmatched(tasks: seq<Task>, id: string)
    requires !HasId(tasks, id)
    ensures WithoutId(tasks, id) == tasks
  {
    if tasks != [] {
      assert !HasId(tasks[1..], id) by {
        forall j | 0 <= j < |tasks| - 1
          ensures tasks[1..][j].id != id
        {
          assert tasks[1..][j] == tasks[j + 1];
        }
      }
      WithoutIdKeepsUnmatched(tasks[1..], id);
    }
  }

  /** When exactly one task has the id, removing it shortens the list by one. */
  lemma WithoutUniqueId(tasks: seq<Task>, id: string)
    requires CountId(tasks, id) == 1
    ensures |WithoutId(tasks, id)| == |tasks| - 1
    ensures HasId(tasks, id) && !HasId(WithoutId(tasks, id), id)
  {
    WithoutIdLength(tasks, id);
    var r := WithoutId(tasks, id);
    forall j | 0 <= j < |r|
      ensures r[j].id != id
    {
      assert r[j] in r;
    }
  }

  /** The filter shortens the list by exactly one precisely when exactly one
      task has the id. */
  lemma WithoutShrinksByOne(tasks: seq<Task>, id: string)
    ensures |WithoutId(tasks, id)| == |tasks| - 1 <==> CountId(tasks, id) == 1
  {
    WithoutIdLength(tasks, id);
  }

  /** `tasks.filter(task => task.status.toLowerCase() === status.toLowerCase())`. */
  function WithStatus(tasks: seq<Task>, status: string): (r: seq<Task>)
    ensures |r| <= |tasks|
    ensures forall t :: t in r <==> t in tasks && Lower(t.status) == Lower(status)
  {
    if tasks == [] then []
    else if Lower(tasks[0].status) == Lower(status) then [tasks[0]] + WithStatus(tasks[1..], status)
    else WithStatus(tasks[1..], status)
  }

  /** The status filter keeps store order: it distributes over concatenation. */
  lemma {:induction false} WithStatusAppend(a: seq<Task>, b: seq<Task>, status: string)
    ensures WithStatus(a + b, status) == WithStatus(a, status) + WithStatus(b, status)
  {
    if a == [] {
      assert a + b == b;
    } else {
      assert (a + b)[1..] == a[1..] + b;
      WithStatusAppend(a[1..], b, status);
    }
  }

  /** The filter depends on the query only through its lower-case form. */
  lemma {:induction false} WithStatusIgnoresQueryCase(tasks: seq<Task>, s: string, t: string)
    requires Lower(s) == Lower(t)
    ensures WithStatus(tasks, s) == WithStatus(tasks, t)
  {
    if tasks != [] {
      WithStatusIgnoresQueryCase(tasks[1..], s, t);
    }
  }

  /** The task `addTask` appends to `tasks`: its id is the numeral of one
      more than the current length, it starts as `just_add`, and it has not
      been updated. */
  function NewTask(tasks: seq<Task>, description: string, now: Instant): (t: Task)
    ensures t.id == Decimal(|tasks| + 1)
    ensures AllDigits(t.id) && DigitsValue(t.id) == |tasks| + 1
    ensures t.description == description && t.status == JustAdded
    ensures t.createdAt == now && t.updatedAt == Unset
  {
    DecimalRoundTrip(|tasks| + 1);
    Task(Decimal(|tasks| + 1), description, JustAdded, now, Unset)
  }

  /** Ids come from the list length, not from a counter, so they are not
      unique: the task "2" survives deleting "1", and the next task added is
      numbered "2" as well. */
  lemma DeleteThenAddReusesId(first: Task, second: Task, description: string, now: Instant)
    requires first.id == "1" && second.id == "2"
    ensures WithoutId([first, second], "1") == [second]
    ensures NewTask(WithoutId([first, second], "1"), description, now).id == second.id
  {
    assert WithoutId([first, second], "1") == [second] by {
      assert [first, second][1..] == [second];
      assert [second][1..] == [];
    }
    assert Decimal(2) == "2";
  }
}
