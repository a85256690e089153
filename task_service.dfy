/** The in-memory task repository: a module-level list of follow-up tasks that
    `create` appends to, `update` and `complete` overwrite in place and `delete`
    splices from. `getById` and `getByCustomerId` parse their argument with
    `parseInt`; `update`, `complete` and `delete` compare it with `===`. */
module TaskService {
  import opened Common
  import opened Lists

  /** A follow-up task. Dates are milliseconds since the epoch; `kind` is the
      task's `type` (`call`, `email` or `whatsapp`). */
  datatype Task = Task(
    id: int,
    customerId: int,
    customerName: string,
    description: string,
    kind: string,
    status: string,
    priority: string,
    dueDate: int,
    createdAt: int,
    completedAt: Option<int>,
    assignedTo: string,
    notes: string)

  /** What a caller hands to `create`. A supplied `id` is spread over the
      allocated one; a supplied `status` is overwritten. */
  datatype TaskInput = TaskInput(
    id: Option<int>,
    customerId: int,
    customerName: string,
    description: string,
    kind: string,
    status: Option<string>,
    priority: string,
    dueDate: int,
    completedAt: Option<int>,
    assignedTo: string,
    notes: string)

  /** The `updates` object of `update`: a field left out is `None`. */
  datatype TaskPatch = TaskPatch(
    id: Option<int>,
    customerId: Option<int>,
    customerName: Option<string>,
    description: Option<string>,
    kind: Option<string>,
    status: Option<string>,
    priority: Option<string>,
    dueDate: Option<int>,
    createdAt: Option<int>,
    completedAt: Option<Option<int>>,
    assignedTo: Option<string>,
    notes: Option<string>)

  function Over<T>(given: Option<T>, kept: T): T {
    if given.Some? then given.value else kept
  }

  /** `{ ...t, ...patch }`. */
  function Patched(t: Task, p: TaskPatch): Task {
    Task(Over(p.id, t.id), Over(p.customerId, t.customerId), Over(p.customerName, t.customerName),
         Over(p.description, t.description), Over(p.kind, t.kind), Over(p.status, t.status),
         Over(p.priority, t.priority), Over(p.dueDate, t.dueDate), Over(p.createdAt, t.createdAt),
         Over(p.completedAt, t.completedAt), Over(p.assignedTo, t.assignedTo), Over(p.notes, t.notes))
  }

  /** An empty patch leaves a task as it was. */
  lemma PatchedByNothing(t: Task)
    ensures Patched(t, TaskPatch(None, None, None, None, None, None, None, None, None, None, None, None)) == t
  {
  }

  /** `{ ...t, status: 'completed', completedAt: now, notes: notes || t.notes }`. */
  function Completed(t: Task, notes: string, now: int): (r: Task)
    ensures r.status == "completed" && r.completedAt == Some(now)
    ensures r.notes == if notes == "" then t.notes else notes
    ensures r.(status := t.status, completedAt := t.completedAt, notes := t.notes) == t
  {
    t.(status := "completed", completedAt := Some(now), notes := if notes != "" then notes else t.notes)
  }

  /** `Math.max(...ts.map(t => t.Id))` on a non-empty list. */
  function MaxId(ts: seq<Task>): (m: int)
    requires |ts| > 0
    ensures forall i :: 0 <= i < |ts| ==> ts[i].id <= m
    ensures exists i :: 0 <= i < |ts| && ts[i].id == m
  {
    var rest := Project(ts[1..], (t: Task) => t.id);
    var m := MaxFrom(ts[0].id, rest);
    assert forall j :: 0 <= j < |rest| ==> rest[j] == ts[j + 1].id;
    m
  }

  /** `findIndex(t => t.Id === id)`: a textual id never matches a numeric `Id`. */
  function IndexStrict(ts: seq<Task>, id: JsId): (k: int)
    ensures -1 <= k < |ts|
    ensures 0 <= k ==> StrictEqualsId(id, ts[k].id)
    ensures k == -1 <==> forall j :: 0 <= j < |ts| ==> !StrictEqualsId(id, ts[j].id)
  {
    FindIndex(ts, (t: Task) => StrictEqualsId(id, t.id))
  }

  /** `find(t => t.Id === parseInt(id))`: the position of the first task whose
      `Id` equals the parsed argument; an argument that parses to `NaN` matches nothing. */
  function IndexParsed(ts: seq<Task>, id: JsId): (k: int)
    ensures -1 <= k < |ts|
    ensures 0 <= k ==> ParseIntArg(id) == Some(ts[k].id)
    ensures k == -1 <==> forall j :: 0 <= j < |ts| ==> ParseIntArg(id) != Some(ts[j].id)
    ensures 0 <= k ==> forall j :: 0 <= j < k ==> ParseIntArg(id) != Some(ts[j].id)
  {
    match ParseIntArg(id)
    case None => -1
    case Some(n) => FindIndex(ts, (t: Task) => t.id == n)
  }

  /** The two lookups agree on numeric ids. */
  lemma NumericLookupsAgree(ts: seq<Task>, n: int)
    ensures IndexParsed(ts, Number(n)) == IndexStrict(ts, Number(n))
  {
    ParseIntArgOfNumber(n);
  }

  /** The textual form of a stored `Id` (as a route parameter carries it) is
      found by `getById`, while `update`, `complete` and `delete` report the
      same argument as not found. */
  lemma TextualIdFoundOnlyByGetById(ts: seq<Task>, i: int)
    requires 0 <= i < |ts|
    ensures IndexParsed(ts, Text(IntToString(ts[i].id))) != -1
    ensures IndexStrict(ts, Text(IntToString(ts[i].id))) == -1
  {
    ParseIntOfIntToString(ts[i].id);
  }

  function CustomerIs(customerId: JsId): Task -> bool {
    (t: Task) => ParseIntArg(customerId) == Some(t.customerId)
  }

  function StatusIs(status: string): Task -> bool {
    (t: Task) => t.status == status
  }

  function OverdueAt(now: int): Task -> bool {
    (t: Task) => t.status == "pending" && t.dueDate < now
  }

  class TaskStore {
    var tasks: seq<Task>

    constructor (initial: seq<Task>)
      ensures tasks == initial
    {
      tasks := initial;
    }

    /** `getAll`: a copy of the list. */
    method GetAll() returns (r: seq<Task>)
      ensures |r| == |tasks| && forall i :: 0 <= i < |r| ==> r[i] == tasks[i]
    {
      r := tasks;
    }

    /** `getById`: the first task whose `Id` equals `parseInt(id)`, or "Task not found". */
    method GetById(id: JsId) returns (r: Result<Task>)
      ensures r.Ok? <==> ParseIntArg(id).Some? && exists i :: 0 <= i < |tasks| && tasks[i].id == ParseIntArg(id).value
      ensures r.Ok? ==> r.value in tasks && Some(r.value.id) == ParseIntArg(id)
      ensures r.Ok? ==> exists k :: 0 <= k < |tasks| && tasks[k] == r.value &&
                                    forall j :: 0 <= j < k ==> Some(tasks[j].id) != ParseIntArg(id)
      ensures r.Err? ==> r.message == "Task not found"
    {
      var k := IndexParsed(tasks, id);
      if k == -1 {
        r := Err("Task not found");
      } else {
        r := Ok(tasks[k]);
      }
    }

    /** `getByCustomerId`: the tasks of that customer, in store order. */
    method GetByCustomerId(customerId: JsId) returns (r: seq<Task>)
      ensures Selects(r, tasks, CustomerIs(customerId))
      ensures ParseIntArg(customerId).None? ==> r == []
    {
      r := Filter(tasks, CustomerIs(customerId));
      FilterSelects(tasks, CustomerIs(customerId));
      if ParseIntArg(customerId).None? {
        FilterKeepsNone(tasks, CustomerIs(customerId));
      }
    }

    /** `create`: appends a task under `Id = max + 1` (unless the input brings
        its own `Id`), always `pending`, created `now`. */
    method Create(input: TaskInput, now: int) returns (t: Task)
      requires input.id.None? ==> |tasks| > 0
      modifies this
      ensures tasks == old(tasks) + [t]
      ensures input.id.None? ==> t.id == MaxId(old(tasks)) + 1
      ensures input.id.None? ==> forall i :: 0 <= i < |old(tasks)| ==> old(tasks)[i].id < t.id
      ensures input.id.Some? ==> t.id == input.id.value
      ensures t.status == "pending" && t.createdAt == now
      ensures t == Task(t.id, input.customerId, input.customerName, input.description, input.kind, "pending",
                        input.priority, input.dueDate, now, input.completedAt, input.assignedTo, input.notes)
    {
      var newId := if input.id.Some? then input.id.value else MaxId(tasks) + 1;
      t := Task(newId, input.customerId, input.customerName, input.description, input.kind, "pending",
                input.priority, input.dueDate, now, input.completedAt, input.assignedTo, input.notes);
      tasks := tasks + [t];
    }

    /** `update`: merges the patch into the task with that `Id`, in its place;
        an unknown id fails with "Task not found" and changes nothing. */
    method Update(id: JsId, patch: TaskPatch) returns (r: Result<Task>)
      modifies this
      ensures var k := IndexStrict(old(tasks), id);
        && (k == -1 ==> r == Err("Task not found") && tasks == old(tasks))
        && (k != -1 ==> r == Ok(Patched(old(tasks)[k], patch)) && tasks == old(tasks)[k := r.value])
    {
      var k := IndexStrict(tasks, id);
      if k == -1 {
        r := Err("Task not found");
        return;
      }
      tasks := tasks[k := Patched(tasks[k], patch)];
      r := Ok(tasks[k]);
    }

    /** `complete`: marks the task with that `Id` completed at `now`, keeping its
        notes unless new ones are given; an unknown id fails and changes nothing. */
    method Complete(id: JsId, notes: string, now: int) returns (r: Result<Task>)
      modifies this
      ensures var k := IndexStrict(old(tasks), id);
        && (k == -1 ==> r == Err("Task not found") && tasks == old(tasks))
        && (k != -1 ==> r == Ok(Completed(old(tasks)[k], notes, now)) && tasks == old(tasks)[k := r.value])
    {
      var k := IndexStrict(tasks, id);
      if k == -1 {
        r := Err("Task not found");
        return;
      }
      tasks := tasks[k := Completed(tasks[k], notes, now)];
      r := Ok(tasks[k]);
    }

    /** `delete`: removes the first task with that `Id`; an unknown id fails and
        changes nothing. */
    method Delete(id: JsId) returns (r: Result<bool>)
      modifies this
      ensures var k := IndexStrict(old(tasks), id);
        && (k == -1 ==> r == Err("Task not found") && tasks == old(tasks))
        && (k != -1 ==> r == Ok(true) && tasks == RemoveAt(old(tasks), k))
    {
      var k := IndexStrict(tasks, id);
      if k == -1 {
        r := Err("Task not found");
        return;
      }
      tasks := RemoveAt(tasks, k);
      r := Ok(true);
    }

    /** `getTasksByStatus`: the tasks with exactly that status, in store order. */
    method GetTasksByStatus(status: string) returns (r: seq<Task>)
      ensures Selects(r, tasks, StatusIs(status))
    {
      r := Filter(tasks, StatusIs(status));
      FilterSelects(tasks, StatusIs(status));
    }

    /** `getOverdueTasks`: the pending tasks due before `now`; a completed or
        already-overdue-marked task is never reported. */
    method GetOverdueTasks(now: int) returns (r: seq<Task>)
      ensures Selects(r, tasks, OverdueAt(now))
      ensures forall i :: 0 <= i < |r| ==> r[i].status != "completed" && r[i].dueDate < now
    {
      r := Filter(tasks, OverdueAt(now));
      FilterSelects(tasks, OverdueAt(now));
    }
  }

  /** Deleting removes exactly the one matching task and keeps every other
      task, in order. */
  lemma {:induction false} DeleteKeepsOthersInOrder(ts: seq<Task>, id: JsId)
    requires IndexStrict(ts, id) != -1
    ensures var k := IndexStrict(ts, id); var ts' := RemoveAt(ts, k);
      && Subsequence(ts', ts)
      && |ts'| == |ts| - 1
      && multiset(ts') + multiset{ts[k]} == multiset(ts)
  {
    var k := IndexStrict(ts, id);
    assert ts == ts[..k] + [ts[k]] + ts[k + 1..];
    RemoveAtIsSubsequence(ts, k);
  }

  lemma {:induction false} RemoveAtIsSubsequence<T>(s: seq<T>, k: nat)
    requires k < |s|
    ensures Subsequence(RemoveAt(s, k), s)
  {
    var r := RemoveAt(s, k);
    if k == 0 {
      assert r == s[1..];
      SubsequenceOfSelf(s[1..]);
    } else {
      RemoveAtIsSubsequence(s[1..], k - 1);
      assert r[0] == s[0] && r[1..] == RemoveAt(s[1..], k - 1);
    }
  }

  lemma {:induction false} SubsequenceOfSelf<T>(s: seq<T>)
    ensures Subsequence(s, s)
  {
    if s != [] {
      SubsequenceOfSelf(s[1..]);
    }
  }
}
