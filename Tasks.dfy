/**
 * The task list of the dashboard and the pure rules the dashboard applies to it: the
 * status selections made with `Array.prototype.filter`, the lookup of a task by id made
 * with `findIndex`/`find`, the status counts behind the distribution chart, and the list
 * that results from an edit, a status toggle or a delete.
 */
module Tasks {

  const Pending: string := "pending"
  const Completed: string := "completed"
  const InProgress: string := "in-progress"
  /** The filter value that selects every task. */
  const All: string := "all"

  /** The statuses the distribution chart counts, in the chart's label order. */
  const ChartStatuses: seq<string> := [Completed, Pending, InProgress]

  /** A task record. Status and priority are the strings the form and the stored document hold. */
  datatype Task = Task(id: int, title: string, description: string, status: string,
                       priority: string, dueDate: string, category: string)

  /** The values of the task form's fields. */
  datatype TaskForm = TaskForm(title: string, description: string, priority: string,
                               dueDate: string, category: string)

  /** The record a create pushes: the given id, the form's fields and status "pending". */
  function NewTask(id: int, form: TaskForm): (t: Task)
    ensures t.id == id && t.status == Pending
    ensures TaskForm(t.title, t.description, t.priority, t.dueDate, t.category) == form
  {
    Task(id, form.title, form.description, Pending, form.priority, form.dueDate, form.category)
  }

  /**
   * The status a toggle gives a task whose status is `status`: `pending` exactly from
   * `completed`, and `completed` from anything else.
   */
  function FlipStatus(status: string): (r: string)
    ensures r == Pending <==> status == Completed
    ensures r == Completed <==> status != Completed
  {
    if status == Completed then Pending else Completed
  }

  function Statuses(tasks: seq<Task>): seq<string> {
    seq(|tasks|, i requires 0 <= i < |tasks| => tasks[i].status)
  }

  function Ids(tasks: seq<Task>): seq<int> {
    seq(|tasks|, i requires 0 <= i < |tasks| => tasks[i].id)
  }

  /** The number of tasks whose status is `status`. */
  function Count(tasks: seq<Task>, status: string): nat {
    multiset(Statuses(tasks))[status]
  }

  /** No two tasks share an id. */
  predicate UniqueIds(tasks: seq<Task>) {
    forall i, j :: 0 <= i < j < |tasks| ==> tasks[i].id != tasks[j].id
  }

  predicate HasId(tasks: seq<Task>, id: int) {
    exists t :: t in tasks && t.id == id
  }

  /** `a` is `b` with some elements left out, the rest in their order. */
  predicate IsSubsequence<T(==)>(a: seq<T>, b: seq<T>)
    decreases |b|
  {
    a == [] || (b != [] && ((a[0] == b[0] && IsSubsequence(a[1..], b[1..])) || IsSubsequence(a, b[1..])))
  }

  /** `i` is the index of the first task with id `id`. */
  predicate FirstMatch(tasks: seq<Task>, id: int, i: int) {
    0 <= i < |tasks| && tasks[i].id == id && forall j :: 0 <= j < i ==> tasks[j].id != id
  }

  // ---------------------------------------------------------------------------------
  // Selections

  /** `tasks.filter(t => t.status === status)`. */
  function WithStatus(tasks: seq<Task>, status: string): (r: seq<Task>)
    ensures |r| <= |tasks|
    ensures forall t :: t in r ==> t in tasks && t.status == status
    ensures forall t :: t in tasks && t.status == status ==> t in r
  {
    if tasks == [] then []
    else (if tasks[0].status == status then [tasks[0]] else []) + WithStatus(tasks[1..], status)
  }

  lemma {:induction false} WithStatusIsSubsequence(tasks: seq<Task>, status: string)
    ensures IsSubsequence(WithStatus(tasks, status), tasks)
  {
    if tasks != [] {
      var rest := WithStatus(tasks[1..], status);
      WithStatusIsSubsequence(tasks[1..], status);
      if tasks[0].status == status {
        var r := [tasks[0]] + rest;
        assert r[0] == tasks[0] && r[1..] == rest;
      } else {
        assert WithStatus(tasks, status) == rest;
      }
    }
  }

  lemma {:induction false} WithStatusLength(tasks: seq<Task>, status: string)
    ensures |WithStatus(tasks, status)| == Count(tasks, status)
  {
    if tasks != [] {
      WithStatusLength(tasks[1..], status);
      WithStatusStep(tasks, status);
      CountStep(tasks, status);
    }
  }

  /** One step of the count: the first task counts iff it has the status. */
  lemma CountStep(tasks: seq<Task>, status: string)
    requires tasks != []
    ensures Count(tasks, status) == Count(tasks[1..], status) + (if tasks[0].status == status then 1 else 0)
  {
    assert Statuses(tasks) == [tasks[0].status] + Statuses(tasks[1..]);
  }

  /** One step of the id count: the first task counts iff it has the id. */
  lemma IdCountStep(tasks: seq<Task>, id: int)
    requires tasks != []
    ensures multiset(Ids(tasks))[id] == multiset(Ids(tasks[1..]))[id] + (if tasks[0].id == id then 1 else 0)
  {
    assert Ids(tasks) == [tasks[0].id] + Ids(tasks[1..]);
  }

  /**
   * The tasks the list shows under a filter: every task for "all"; otherwise exactly the
   * tasks whose status equals the filter, in their original order.
   */
  function Visible(tasks: seq<Task>, filter: string): (r: seq<Task>)
    ensures filter == All ==> r == tasks
    ensures filter != All ==>
      IsSubsequence(r, tasks) && (forall t :: t in r ==> t.status == filter) && |r| == Count(tasks, filter)
  {
    WithStatusIsSubsequence(tasks, filter);
    WithStatusLength(tasks, filter);
    if filter == All then tasks else WithStatus(tasks, filter)
  }

  // ---------------------------------------------------------------------------------
  // Status counts

  /** The series `[completed, pending, inProgress]` computed with three `filter(...).length`. */
  function Distribution(tasks: seq<Task>): (r: seq<int>)
    ensures r == [Count(tasks, Completed), Count(tasks, Pending), Count(tasks, InProgress)]
  {
    WithStatusLength(tasks, Completed);
    WithStatusLength(tasks, Pending);
    WithStatusLength(tasks, InProgress);
    [|WithStatus(tasks, Completed)|, |WithStatus(tasks, Pending)|, |WithStatus(tasks, InProgress)|]
  }

  /** Every task has one of the three statuses the chart counts. */
  predicate AllCharted(tasks: seq<Task>) {
    forall t :: t in tasks ==> t.status in ChartStatuses
  }

  /**
   * The three counts never exceed the number of tasks, and add up to it exactly when every
   * task has one of the three statuses.
   */
  lemma DistributionTotal(tasks: seq<Task>)
    ensures var d := Distribution(tasks); d[0] + d[1] + d[2] <= |tasks|
    ensures var d := Distribution(tasks); d[0] + d[1] + d[2] == |tasks| <==> AllCharted(tasks)
  {
    ChartedCounts(tasks);
  }

  lemma {:induction false} ChartedCounts(tasks: seq<Task>)
    ensures var n := |WithStatus(tasks, Completed)| + |WithStatus(tasks, Pending)| + |WithStatus(tasks, InProgress)|;
      n <= |tasks| && (n == |tasks| <==> AllCharted(tasks))
  {
    if tasks != [] {
      var rest := tasks[1..];
      ChartedCounts(rest);
      WithStatusStep(tasks, Completed);
      WithStatusStep(tasks, Pending);
      WithStatusStep(tasks, InProgress);
      assert AllCharted(tasks) <==> tasks[0].status in ChartStatuses && AllCharted(rest) by {
        assert tasks == [tasks[0]] + rest;
      }
    }
  }

  /** One step of the status filter: the first task counts iff it has the status. */
  lemma WithStatusStep(tasks: seq<Task>, status: string)
    requires tasks != []
    ensures |WithStatus(tasks, status)| ==
      |WithStatus(tasks[1..], status)| + (if tasks[0].status == status then 1 else 0)
  {
  }

  // ---------------------------------------------------------------------------------
  // Lookup by id

  /** `tasks.findIndex(t => t.id === id)`: the first index with that id, or -1. */
  function FindIndex(tasks: seq<Task>, id: int): (r: int)
    ensures -1 <= r < |tasks|
    ensures r == -1 <==> !HasId(tasks, id)
    ensures r != -1 ==> FirstMatch(tasks, id, r)
  {
    if tasks == [] then -1
    else if tasks[0].id == id then 0
    else
      var k := FindIndex(tasks[1..], id);
      assert HasId(tasks, id) ==> HasId(tasks[1..], id);
      if k == -1 then -1 else k + 1
  }

  /** Lists with the same ids in the same order have their first match at the same index. */
  lemma {:induction false} FindIndexSameIds(a: seq<Task>, b: seq<Task>, id: int)
    requires Ids(a) == Ids(b)
    ensures FindIndex(a, id) == FindIndex(b, id)
  {
    if a != [] {
      assert a[0].id == Ids(a)[0] == Ids(b)[0] == b[0].id;
      assert Ids(a[1..]) == Ids(a)[1..] == Ids(b)[1..] == Ids(b[1..]);
      FindIndexSameIds(a[1..], b[1..], id);
    }
  }

  // ---------------------------------------------------------------------------------
  // Edit, toggle, delete

  /**
   * The edit branch of the save: the first task with id `id` gets the form's fields, keeping
   * its id and status; every other task is unchanged. With no such task nothing changes.
   */
  function Updated(tasks: seq<Task>, id: int, form: TaskForm): (r: seq<Task>)
    ensures |r| == |tasks|
    ensures !HasId(tasks, id) ==> r == tasks
    ensures forall i :: FirstMatch(tasks, id, i) ==>
      (forall j :: 0 <= j < |r| && j != i ==> r[j] == tasks[j]) &&
      r[i].id == tasks[i].id && r[i].status == tasks[i].status &&
      r[i].title == form.title && r[i].description == form.description &&
      r[i].priority == form.priority && r[i].dueDate == form.dueDate &&
      r[i].category == form.category
  {
    var i := FindIndex(tasks, id);
    if i == -1 then tasks
    else
      tasks[i := tasks[i].(title := form.title, description := form.description,
                          priority := form.priority, dueDate := form.dueDate,
                          category := form.category)]
  }

  /**
   * The toggle: the first task with id `id` goes from "completed" to "pending" and from any
   * other status to "completed"; nothing else changes. With no such task nothing changes.
   */
  function Toggled(tasks: seq<Task>, id: int): (r: seq<Task>)
    ensures |r| == |tasks|
    ensures !HasId(tasks, id) ==> r == tasks
    ensures forall i :: FirstMatch(tasks, id, i) ==>
      (forall j :: 0 <= j < |r| && j != i ==> r[j] == tasks[j]) &&
      r[i].(status := tasks[i].status) == tasks[i] &&
      (tasks[i].status == Completed ==> r[i].status == Pending) &&
      (tasks[i].status != Completed ==> r[i].status == Completed)
  {
    var i := FindIndex(tasks, id);
    if i == -1 then tasks
    else tasks[i := tasks[i].(status := FlipStatus(tasks[i].status))]
  }

  /** `tasks.filter(t => t.id !== id)`: every task with id `id` removed. */
  function Removed(tasks: seq<Task>, id: int): (r: seq<Task>)
    ensures forall t :: t in r ==> t in tasks && t.id != id
    ensures forall t :: t in tasks && t.id != id ==> t in r
    ensures !HasId(tasks, id) ==> r == tasks
  {
    if tasks == [] then []
    else
      assert !HasId(tasks, id) ==> !HasId(tasks[1..], id) && tasks[0].id != id;
      assert tasks == [tasks[0]] + tasks[1..];
      (if tasks[0].id != id then [tasks[0]] else []) + Removed(tasks[1..], id)
  }

  /** Delete keeps the other tasks in their order. */
  lemma {:induction false} RemovedIsSubsequence(tasks: seq<Task>, id: int)
    ensures IsSubsequence(Removed(tasks, id), tasks)
  {
    if tasks != [] {
      var rest := Removed(tasks[1..], id);
      RemovedIsSubsequence(tasks[1..], id);
      if tasks[0].id != id {
        var r := [tasks[0]] + rest;
        assert r[0] == tasks[0] && r[1..] == rest;
      } else {
        assert Removed(tasks, id) == rest;
      }
    }
  }

  /** One step of the delete: the first task stays iff its id differs. */
  lemma RemovedStep(tasks: seq<Task>, id: int)
    requires tasks != []
    ensures |Removed(tasks, id)| == |Removed(tasks[1..], id)| + (if tasks[0].id != id then 1 else 0)
  {
  }

  /** Delete shortens the list by the number of tasks that have the id. */
  lemma {:induction false} RemovedLength(tasks: seq<Task>, id: int)
    ensures |Removed(tasks, id)| == |tasks| - multiset(Ids(tasks))[id]
  {
    if tasks != [] {
      RemovedLength(tasks[1..], id);
      IdCountStep(tasks, id);
      RemovedStep(tasks, id);
    }
  }

  // ---------------------------------------------------------------------------------
  // Properties across operations

  /** Flipping a status twice gives it back exactly for the two statuses a toggle produces. */
  lemma FlipStatusTwice(status: string)
    ensures FlipStatus(FlipStatus(status)) == status <==> status == Completed || status == Pending
  {
  }

  /** Toggling a completed or pending task twice gives the list back. */
  lemma ToggleTwice(tasks: seq<Task>, id: int)
    requires forall i :: FirstMatch(tasks, id, i) ==> tasks[i].status in {Completed, Pending}
    ensures Toggled(Toggled(tasks, id), id) == tasks
  {
    var once := Toggled(tasks, id);
    if HasId(tasks, id) {
      var i := FindIndex(tasks, id);
      ToggleKeepsIds(tasks, id);
      FindIndexSameIds(once, tasks, id);
      assert FirstMatch(once, id, i);
    }
  }

  /** An "in-progress" task is not restored by two toggles: it ends up "pending". */
  lemma ToggleTwiceInProgress(tasks: seq<Task>, id: int, i: int)
    requires FirstMatch(tasks, id, i) && tasks[i].status == InProgress
    ensures Toggled(Toggled(tasks, id), id)[i].status == Pending
  {
    var once := Toggled(tasks, id);
    ToggleKeepsIds(tasks, id);
    FindIndexSameIds(once, tasks, id);
    assert FirstMatch(once, id, i);
  }

  /** An edit leaves the ids, in order, as they were. */
  lemma UpdateKeepsIds(tasks: seq<Task>, id: int, form: TaskForm)
    ensures Ids(Updated(tasks, id, form)) == Ids(tasks)
  {
    if HasId(tasks, id) {
      assert FirstMatch(tasks, id, FindIndex(tasks, id));
    }
  }

  /** A toggle leaves the ids, in order, as they were. */
  lemma ToggleKeepsIds(tasks: seq<Task>, id: int)
    ensures Ids(Toggled(tasks, id)) == Ids(tasks)
  {
    if HasId(tasks, id) {
      assert FirstMatch(tasks, id, FindIndex(tasks, id));
    }
  }

  /** An edit leaves every status, hence every count, as it was. */
  lemma UpdateKeepsDistribution(tasks: seq<Task>, id: int, form: TaskForm)
    ensures Distribution(Updated(tasks, id, form)) == Distribution(tasks)
  {
    if HasId(tasks, id) {
      assert FirstMatch(tasks, id, FindIndex(tasks, id));
    }
    assert Statuses(Updated(tasks, id, form)) == Statuses(tasks);
  }

  /**
   * A toggle moves one task from the count of its old status to the count of its new one:
   * this is what the chart shows after a toggle.
   */
  lemma ToggleMovesOneCount(tasks: seq<Task>, id: int, i: int, status: string)
    requires FirstMatch(tasks, id, i)
    ensures Count(Toggled(tasks, id), status) ==
      Count(tasks, status) - (if tasks[i].status == status then 1 else 0)
                           + (if FlipStatus(tasks[i].status) == status then 1 else 0)
  {
    var r := Toggled(tasks, id);
    assert Statuses(r) == Statuses(tasks)[i := FlipStatus(tasks[i].status)];
  }

  /** A create adds one to the pending count and leaves every other count alone. */
  lemma CreateAddsOnePending(tasks: seq<Task>, id: int, form: TaskForm, status: string)
    ensures Count(tasks + [NewTask(id, form)], status) ==
      Count(tasks, status) + (if status == Pending then 1 else 0)
  {
    var r := tasks + [NewTask(id, form)];
    assert Statuses(r) == Statuses(tasks) + [Pending];
  }

  /** A created task is listed under "pending" and not under "completed". */
  lemma CreatedTaskIsListedPending(tasks: seq<Task>, id: int, form: TaskForm)
    ensures NewTask(id, form) in Visible(tasks + [NewTask(id, form)], Pending)
    ensures NewTask(id, form) !in Visible(tasks + [NewTask(id, form)], Completed)
  {
    assert NewTask(id, form) == (tasks + [NewTask(id, form)])[|tasks|];
  }

  /** A create with an id no task has keeps ids unique. */
  lemma CreateKeepsIdsUnique(tasks: seq<Task>, id: int, form: TaskForm)
    requires UniqueIds(tasks) && !HasId(tasks, id)
    ensures UniqueIds(tasks + [NewTask(id, form)])
  {
    var r := tasks + [NewTask(id, form)];
    forall i, j | 0 <= i < j < |r| ensures r[i].id != r[j].id {
      if j == |tasks| {
        assert r[i] in tasks;
      }
    }
  }

  /** Lists with the same ids in the same order agree on whether ids are unique. */
  lemma SameIdsSameUniqueness(a: seq<Task>, b: seq<Task>)
    requires Ids(a) == Ids(b) && UniqueIds(a)
    ensures UniqueIds(b)
  {
    forall i, j | 0 <= i < j < |b| ensures b[i].id != b[j].id {
      assert a[i].id == Ids(a)[i] == Ids(b)[i] == b[i].id;
      assert a[j].id == Ids(a)[j] == Ids(b)[j] == b[j].id;
    }
  }

  /** An edit keeps ids unique. */
  lemma UpdateKeepsIdsUnique(tasks: seq<Task>, id: int, form: TaskForm)
    requires UniqueIds(tasks)
    ensures UniqueIds(Updated(tasks, id, form))
  {
    UpdateKeepsIds(tasks, id, form);
    SameIdsSameUniqueness(tasks, Updated(tasks, id, form));
  }

  /** A toggle keeps ids unique. */
  lemma ToggleKeepsIdsUnique(tasks: seq<Task>, id: int)
    requires UniqueIds(tasks)
    ensures UniqueIds(Toggled(tasks, id))
  {
    ToggleKeepsIds(tasks, id);
    SameIdsSameUniqueness(tasks, Toggled(tasks, id));
  }

  lemma UniqueTail(tasks: seq<Task>)
    requires tasks != [] && UniqueIds(tasks)
    ensures UniqueIds(tasks[1..]) && !HasId(tasks[1..], tasks[0].id)
  {
    var rest := tasks[1..];
    forall i, j | 0 <= i < j < |rest| ensures rest[i].id != rest[j].id {
      assert rest[i] == tasks[i + 1] && rest[j] == tasks[j + 1];
    }
    forall t | t in rest ensures t.id != tasks[0].id {
      var k :| 0 <= k < |rest| && rest[k] == t;
      assert tasks[k + 1] == t;
    }
  }

  /** A delete keeps ids unique. */
  lemma {:induction false} RemoveKeepsIdsUnique(tasks: seq<Task>, id: int)
    requires UniqueIds(tasks)
    ensures UniqueIds(Removed(tasks, id))
  {
    if tasks != [] && tasks[0].id != id {
      var rest := tasks[1..];
      UniqueTail(tasks);
      RemoveKeepsIdsUnique(rest, id);
      var r' := Removed(rest, id);
      assert Removed(tasks, id) == [tasks[0]] + r';
      ConsKeepsIdsUnique(tasks[0], r', rest);
    } else if tasks != [] {
      UniqueTail(tasks);
      RemoveKeepsIdsUnique(tasks[1..], id);
    }
  }

  lemma ConsKeepsIdsUnique(t: Task, r: seq<Task>, rest: seq<Task>)
    requires UniqueIds(r) && !HasId(rest, t.id) && forall u :: u in r ==> u in rest
    ensures UniqueIds([t] + r)
  {
    var s := [t] + r;
    forall i, j | 0 <= i < j < |s| ensures s[i].id != s[j].id {
      assert s[j] == r[j - 1];
      if i > 0 {
        assert s[i] == r[i - 1];
      } else {
        assert r[j - 1] in rest;
      }
    }
  }

  /** With unique ids, deleting a present id removes exactly one task. */
  lemma {:induction false} RemoveUniqueRemovesOne(tasks: seq<Task>, id: int)
    requires UniqueIds(tasks) && HasId(tasks, id)
    ensures |Removed(tasks, id)| == |tasks| - 1
  {
    var rest := tasks[1..];
    UniqueTail(tasks);
    if tasks[0].id != id {
      var t :| t in tasks && t.id == id;
      assert t in rest;
      RemoveUniqueRemovesOne(rest, id);
    }
  }
}
