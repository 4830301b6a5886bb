/** The record routes of the Flask service (ML/combinedtemp.py): partial
    updates of a task, an employee or a history row, and the batch insert of
    history rows. The three tables are held in one store object; a patch is
    the JSON body, one `Option` per field, `Some` when the key is present. */
module RecordStore {
  import opened Values
  import opened Records

  /** `b if b is not None else a`: the later of two patch entries. */
  function Later<T>(a: Option<T>, b: Option<T>): Option<T> {
    if b.Some? then b else a
  }

  datatype TaskPatch = TaskPatch(
    description: Option<string>,
    requiredSkills: Option<string>,
    priority: Option<int>,
    estimatedTime: Option<int>,
    complexity: Option<int>)

  /** `update_task`'s field assignments: `data.get(key, current)` per field. */
  function ApplyTaskPatch(t: Task, p: TaskPatch): (r: Task)
    ensures r.id == t.id
    ensures r.description == (if p.description.Some? then p.description.value else t.description)
    ensures r.requiredSkills == (if p.requiredSkills.Some? then p.requiredSkills.value else t.requiredSkills)
    ensures r.priority == (if p.priority.Some? then p.priority.value else t.priority)
    ensures r.estimatedTime == (if p.estimatedTime.Some? then p.estimatedTime.value else t.estimatedTime)
    ensures r.complexity == (if p.complexity.Some? then p.complexity.value else t.complexity)
  {
    t.(description := p.description.GetOr(t.description),
       requiredSkills := p.requiredSkills.GetOr(t.requiredSkills),
       priority := p.priority.GetOr(t.priority),
       estimatedTime := p.estimatedTime.GetOr(t.estimatedTime),
       complexity := p.complexity.GetOr(t.complexity))
  }

  function MergeTaskPatch(p: TaskPatch, q: TaskPatch): TaskPatch {
    TaskPatch(Later(p.description, q.description), Later(p.requiredSkills, q.requiredSkills),
              Later(p.priority, q.priority), Later(p.estimatedTime, q.estimatedTime),
              Later(p.complexity, q.complexity))
  }

  /** An empty body changes nothing; sending a body twice is the same as once;
      two bodies in a row act as one body whose later keys win. */
  lemma TaskPatchLaws(t: Task, p: TaskPatch, q: TaskPatch)
    ensures ApplyTaskPatch(t, TaskPatch(None, None, None, None, None)) == t
    ensures ApplyTaskPatch(ApplyTaskPatch(t, p), p) == ApplyTaskPatch(t, p)
    ensures ApplyTaskPatch(ApplyTaskPatch(t, p), q) == ApplyTaskPatch(t, MergeTaskPatch(p, q))
  {
  }

  datatype EmployeePatch = EmployeePatch(
    name: Option<string>,
    role: Option<string>,
    skills: Option<string>,
    experience: Option<int>,
    availability: Option<int>,
    currentWorkload: Option<int>,
    performanceScore: Option<int>)

  /** `update_employee`'s field assignments. */
  function ApplyEmployeePatch(e: Employee, p: EmployeePatch): (r: Employee)
    ensures r.id == e.id
    ensures r.name == (if p.name.Some? then p.name.value else e.name)
    ensures r.role == (if p.role.Some? then p.role.value else e.role)
    ensures r.skills == (if p.skills.Some? then p.skills.value else e.skills)
    ensures r.experience == (if p.experience.Some? then p.experience.value else e.experience)
    ensures r.availability == (if p.availability.Some? then p.availability.value else e.availability)
    ensures r.currentWorkload == (if p.currentWorkload.Some? then p.currentWorkload.value else e.currentWorkload)
    ensures r.performanceScore == (if p.performanceScore.Some? then p.performanceScore.value else e.performanceScore)
  {
    e.(name := p.name.GetOr(e.name),
       role := p.role.GetOr(e.role),
       skills := p.skills.GetOr(e.skills),
       experience := p.experience.GetOr(e.experience),
       availability := p.availability.GetOr(e.availability),
       currentWorkload := p.currentWorkload.GetOr(e.currentWorkload),
       performanceScore := p.performanceScore.GetOr(e.performanceScore))
  }

  function MergeEmployeePatch(p: EmployeePatch, q: EmployeePatch): EmployeePatch {
    EmployeePatch(Later(p.name, q.name), Later(p.role, q.role), Later(p.skills, q.skills),
                  Later(p.experience, q.experience), Later(p.availability, q.availability),
                  Later(p.currentWorkload, q.currentWorkload), Later(p.performanceScore, q.performanceScore))
  }

  lemma EmployeePatchLaws(e: Employee, p: EmployeePatch, q: EmployeePatch)
    ensures ApplyEmployeePatch(e, EmployeePatch(None, None, None, None, None, None, None)) == e
    ensures ApplyEmployeePatch(ApplyEmployeePatch(e, p), p) == ApplyEmployeePatch(e, p)
    ensures ApplyEmployeePatch(ApplyEmployeePatch(e, p), q) == ApplyEmployeePatch(e, MergeEmployeePatch(p, q))
  {
  }

  /** The body of `update_task_history`: `None` for an absent key,
      `Some(None)` for a key sent as null. */
  datatype HistoryPatch = HistoryPatch(
    assignedDate: Option<Option<string>>,
    completedDate: Option<Option<string>>,
    completionTime: Option<Option<int>>,
    feedbackScore: Option<Option<int>>)

  /** `update_task_history`'s field assignments: the row's id, Employee_ID and
      Task_ID are never touched. */
  function ApplyHistoryPatch(h: HistoryRow, p: HistoryPatch): (r: HistoryRow)
    ensures r.id == h.id && r.employeeId == h.employeeId && r.taskId == h.taskId
    ensures r.assignedDate == (if p.assignedDate.Some? then p.assignedDate.value else h.assignedDate)
    ensures r.completedDate == (if p.completedDate.Some? then p.completedDate.value else h.completedDate)
    ensures r.completionTime == (if p.completionTime.Some? then p.completionTime.value else h.completionTime)
    ensures r.feedbackScore == (if p.feedbackScore.Some? then p.feedbackScore.value else h.feedbackScore)
  {
    h.(assignedDate := p.assignedDate.GetOr(h.assignedDate),
       completedDate := p.completedDate.GetOr(h.completedDate),
       completionTime := p.completionTime.GetOr(h.completionTime),
       feedbackScore := p.feedbackScore.GetOr(h.feedbackScore))
  }

  function MergeHistoryPatch(p: HistoryPatch, q: HistoryPatch): HistoryPatch {
    HistoryPatch(Later(p.assignedDate, q.assignedDate), Later(p.completedDate, q.completedDate),
                 Later(p.completionTime, q.completionTime), Later(p.feedbackScore, q.feedbackScore))
  }

  lemma HistoryPatchLaws(h: HistoryRow, p: HistoryPatch, q: HistoryPatch)
    ensures ApplyHistoryPatch(h, HistoryPatch(None, None, None, None)) == h
    ensures ApplyHistoryPatch(ApplyHistoryPatch(h, p), p) == ApplyHistoryPatch(h, p)
    ensures ApplyHistoryPatch(ApplyHistoryPatch(h, p), q) == ApplyHistoryPatch(h, MergeHistoryPatch(p, q))
  {
  }

  /** One item of the `add_task_history` body. The first three keys are read
      with `item[key]` and must be present (Assigned_Date may be sent as null,
      `Some(None)`); the others with `item.get(key)`, absent and null alike
      giving NULL. */
  datatype HistoryItem = HistoryItem(
    employeeId: Option<int>,
    taskId: Option<int>,
    assignedDate: Option<Option<string>>,
    completedDate: Option<string>,
    completionTime: Option<int>,
    feedbackScore: Option<int>)

  predicate Complete(item: HistoryItem) {
    item.employeeId.Some? && item.taskId.Some? && item.assignedDate.Some?
  }

  /** The row an item becomes, with the id the database gives it. */
  function RowOf(item: HistoryItem, id: int): HistoryRow
    requires Complete(item)
  {
    HistoryRow(id, item.employeeId.value, item.taskId.value, item.assignedDate.value,
               item.completedDate, item.completionTime, item.feedbackScore)
  }

  /** The rows of `items`, numbered consecutively from `start`. */
  function NewRows(items: seq<HistoryItem>, start: int): (r: seq<HistoryRow>)
    requires forall k :: 0 <= k < |items| ==> Complete(items[k])
    ensures |r| == |items|
    ensures forall k :: 0 <= k < |items| ==> r[k] == RowOf(items[k], start + k)
    decreases |items|
  {
    if |items| == 0 then [] else [RowOf(items[0], start)] + NewRows(items[1..], start + 1)
  }

  /** History ids are positive and strictly increase along the table. */
  predicate IdsIncreasing(h: seq<HistoryRow>) {
    (forall k :: 0 <= k < |h| ==> h[k].id >= 1) &&
    (forall i, j :: 0 <= i < j < |h| ==> h[i].id < h[j].id)
  }

  /** The id the database assigns next: one past the largest. */
  function NextId(h: seq<HistoryRow>): (n: int)
    requires IdsIncreasing(h)
    ensures n >= 1
    ensures forall k :: 0 <= k < |h| ==> h[k].id < n
  {
    if |h| == 0 then 1 else h[|h| - 1].id + 1
  }

  /** The position of the row with id `id`, if any. */
  function IndexOfId(h: seq<HistoryRow>, id: int): (r: Option<nat>)
    ensures r.Some? ==> r.value < |h| && h[r.value].id == id
    ensures r.None? ==> forall k :: 0 <= k < |h| ==> h[k].id != id
    decreases |h|
  {
    if |h| == 0 then None
    else if h[|h| - 1].id == id then Some(|h| - 1)
    else IndexOfId(h[..|h| - 1], id)
  }

  /** Appending the new rows after the existing ones keeps the ids increasing. */
  lemma AppendKeepsIdsIncreasing(h: seq<HistoryRow>, items: seq<HistoryItem>)
    requires IdsIncreasing(h)
    requires forall k :: 0 <= k < |items| ==> Complete(items[k])
    ensures IdsIncreasing(h + NewRows(items, NextId(h)))
  {
    var n := NextId(h);
    var all := h + NewRows(items, n);
    forall i, j | 0 <= i < j < |all| ensures all[i].id < all[j].id {
      if j >= |h| && i < |h| {
        assert all[j].id == n + (j - |h|);
      }
    }
  }

  /** Adding an item for a task that already has a history row is accepted
      like any other: the number of rows of that task grows by one. */
  lemma DuplicateTaskIdAccepted(h: seq<HistoryRow>, item: HistoryItem)
    requires IdsIncreasing(h) && Complete(item)
    ensures var onTask := (r: HistoryRow) => r.taskId == item.taskId.value;
      |Filter(h + NewRows([item], NextId(h)), onTask)| == |Filter(h, onTask)| + 1
  {
    var onTask := (r: HistoryRow) => r.taskId == item.taskId.value;
    var added := NewRows([item], NextId(h));
    FilterAppend(h, added, onTask);
    assert added == [RowOf(item, NextId(h))];
    assert Filter(added, onTask) == Filter([], onTask) + [added[0]];
  }

  /** How `add_task_history` ends: the rows were added, or an item lacked a
      required key and the request failed before anything was added. */
  datatype AddOutcome = Added(count: nat) | MissingField

  class Store {
    var tasks: map<int, Task>
    var employees: map<int, Employee>
    var history: seq<HistoryRow>

    /** Every row is stored under its own primary key. */
    ghost predicate Valid()
      reads this
    {
      (forall id :: id in tasks ==> tasks[id].id == id) &&
      (forall id :: id in employees ==> employees[id].id == id) &&
      IdsIncreasing(history)
    }

    constructor ()
      ensures Valid()
      ensures tasks == map[] && employees == map[] && history == []
    {
      tasks := map[];
      employees := map[];
      history := [];
    }

    /** `update_task`: 404 (false) for an unknown id, otherwise only that task
        changes, and only in the fields present in the body. */
    method UpdateTask(id: int, patch: TaskPatch) returns (found: bool)
      requires Valid()
      modifies this
      ensures Valid()
      ensures found <==> id in old(tasks)
      ensures found ==> tasks == old(tasks)[id := ApplyTaskPatch(old(tasks)[id], patch)]
      ensures !found ==> tasks == old(tasks)
      ensures employees == old(employees) && history == old(history)
    {
      if id !in tasks {
        return false;
      }
      tasks := tasks[id := ApplyTaskPatch(tasks[id], patch)];
      found := true;
    }

    /** `update_employee` */
    method UpdateEmployee(id: int, patch: EmployeePatch) returns (found: bool)
      requires Valid()
      modifies this
      ensures Valid()
      ensures found <==> id in old(employees)
      ensures found ==> employees == old(employees)[id := ApplyEmployeePatch(old(employees)[id], patch)]
      ensures !found ==> employees == old(employees)
      ensures tasks == old(tasks) && history == old(history)
    {
      if id !in employees {
        return false;
      }
      employees := employees[id := ApplyEmployeePatch(employees[id], patch)];
      found := true;
    }

    /** `update_task_history` */
    method UpdateTaskHistory(id: int, patch: HistoryPatch) returns (found: bool)
      requires Valid()
      modifies this
      ensures Valid()
      ensures found <==> exists k :: 0 <= k < |old(history)| && old(history)[k].id == id
      ensures found ==> (|history| == |old(history)| &&
        forall k :: 0 <= k < |history| ==>
          history[k] == if old(history)[k].id == id then ApplyHistoryPatch(old(history)[k], patch) else old(history)[k])
      ensures !found ==> history == old(history)
      ensures tasks == old(tasks) && employees == old(employees)
    {
      var k := IndexOfId(history, id);
      if k.None? {
        return false;
      }
      var i := k.value;
      assert forall j :: 0 <= j < |history| && j != i ==> history[j].id != id;
      history := history[i := ApplyHistoryPatch(history[i], patch)];
      found := true;
    }

    /** `add_task_history`: the items are turned into rows one by one; an item
        without Employee_ID, Task_ID or Assigned_Date aborts the request
        before anything is stored. Nothing checks whether a task already has
        a row. */
    method AddTaskHistory(items: seq<HistoryItem>) returns (outcome: AddOutcome)
      requires Valid()
      modifies this
      ensures Valid()
      ensures outcome == MissingField <==> exists k :: 0 <= k < |items| && !Complete(items[k])
      ensures outcome == MissingField ==> history == old(history)
      ensures outcome.Added? ==> (outcome.count == |items| &&
        (forall k :: 0 <= k < |items| ==> Complete(items[k])) &&
        history == old(history) + NewRows(items, NextId(old(history))))
      ensures tasks == old(tasks) && employees == old(employees)
    {
      var start := NextId(history);
      var rows: seq<HistoryRow> := [];
      var i := 0;
      while i < |items|
        invariant 0 <= i <= |items| && |rows| == i
        invariant forall k :: 0 <= k < i ==> Complete(items[k]) && rows[k] == RowOf(items[k], start + k)
      {
        if !Complete(items[i]) {
          return MissingField;
        }
        rows := rows + [RowOf(items[i], start + i)];
        i := i + 1;
      }
      assert rows == NewRows(items, start);
      AppendKeepsIdsIncreasing(history, items);
      history := history + rows;
      outcome := Added(|items|);
    }
  }
}
