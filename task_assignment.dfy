/** The task assignment screen of the web client
    (WebTaskFlow/src/components/TaskAssignment.jsx): the date and workload
    arithmetic, the already-assigned check, and the component state that the
    assign, edit and update handlers change. Dates are milliseconds since the
    epoch, `None` standing for an empty date field; a calendar-day string is
    the millisecond of its midnight (UTC). Server replies are parameters. */
module TaskAssignment {
  import opened Values
  import opened JsParse

  const HourMs := 3600000
  const DayMs := 86400000

  /** `calculateWorkloadPerWeek(hours)`: `Math.ceil(hours / 7)`. */
  function WorkloadPerWeek(hours: int): (r: int)
    ensures 7 * r - 7 < hours <= 7 * r
  {
    -((-hours) / 7)
  }

  lemma WorkloadPerWeekFacts(a: int, b: int)
    requires a <= b
    ensures WorkloadPerWeek(a) <= WorkloadPerWeek(b)
    ensures WorkloadPerWeek(0) == 0 && WorkloadPerWeek(14) == 2 && WorkloadPerWeek(15) == 3
    ensures a >= 0 ==> WorkloadPerWeek(a) >= 0
  {
  }

  function Abs(x: int): nat {
    if x < 0 then -x else x
  }

  /** `calculateCompletionTime(start, finish)`: empty when either date is
      missing, otherwise the whole hours between the dates, rounded up. */
  function CompletionTime(start: Option<int>, finish: Option<int>): (r: Option<int>)
    ensures r.None? <==> start.None? || finish.None?
    ensures r.Some? ==>
      (r.value >= 0 && (r.value - 1) * HourMs < Abs(finish.value - start.value) <= r.value * HourMs)
  {
    if start.None? || finish.None? then None
    else
      var gap: int := Abs(finish.value - start.value);
      Some(-((-gap) / HourMs))
  }

  /** The duration does not depend on which date is later. */
  lemma CompletionTimeSymmetric(a: Option<int>, c: Option<int>)
    ensures CompletionTime(a, c) == CompletionTime(c, a)
  {
  }

  /** Dates three days apart are 72 hours apart. */
  lemma CompletionTimeOfThreeDays(d: int)
    ensures CompletionTime(Some(d), Some(d + 3 * DayMs)) == Some(72)
  {
  }

  /** The value the completion-time field receives: "" or a number. */
  function CompletionTimeJs(start: Option<int>, finish: Option<int>): JsValue {
    match CompletionTime(start, finish)
    case None => Str("")
    case Some(h) => Num(h)
  }

  /** `adjustDateByHours(date, hours)`: empty when the date is missing or
      hours is 0, otherwise the calendar day of `date + hours`. */
  function AdjustDateByHours(date: Option<int>, hours: int): (r: Option<int>)
    ensures r.None? <==> date.None? || hours == 0
    ensures r.Some? ==>
      (r.value % DayMs == 0 && r.value <= date.value + hours * HourMs < r.value + DayMs)
  {
    if date.None? || hours == 0 then None
    else Some(((date.value + hours * HourMs) / DayMs) * DayMs)
  }

  /** Moving a day forward by a whole number of days and measuring the
      distance gives the hours back. */
  lemma AdjustThenMeasure(d: int, h: int)
    requires d % DayMs == 0 && h > 0 && h % 24 == 0
    ensures CompletionTime(Some(d), AdjustDateByHours(Some(d), h)) == Some(h)
  {
    var days := h / 24;
    var m := d / DayMs;
    assert h * HourMs == days * DayMs;
    assert d + h * HourMs == (m + days) * DayMs;
    assert (d + h * HourMs) / DayMs == m + days;
    var end := AdjustDateByHours(Some(d), h).value;
    assert end == d + h * HourMs;
    assert Abs(end - d) == h * HourMs;
    assert (-(h * HourMs)) / HourMs == -h;
  }

  /** `Math.min(Math.max(parseInt(v), 1), 5)`: NaN stays NaN. */
  function ClampFeedback(parsed: Option<int>): (r: JsValue)
    ensures parsed.None? <==> r == NaN
    ensures parsed.Some? ==> r.Num? && 1 <= r.n <= 5
    ensures parsed.Some? && 1 <= parsed.value <= 5 ==> r == Num(parsed.value)
    ensures parsed.Some? && parsed.value < 1 ==> r == Num(1)
    ensures parsed.Some? && parsed.value > 5 ==> r == Num(5)
  {
    match parsed
    case None => NaN
    case Some(v) => Num(if v < 1 then 1 else if v > 5 then 5 else v)
  }

  /** Clamping a clamped score changes nothing. */
  lemma ClampFeedbackIdempotent(v: int)
    ensures ClampFeedback(Some(ClampFeedback(Some(v)).n)) == ClampFeedback(Some(v))
  {
  }

  /** One entry of `taskHistory`, as fetched from the server or appended after
      an assignment; absent keys are `Undefined` (or `None` for dates). */
  datatype Entry = Entry(
    rowId: JsValue,
    employeeId: int,
    taskId: JsValue,
    assignedDate: Option<int>,
    completedDate: Option<int>,
    completionTime: JsValue,
    feedbackScore: JsValue)

  /** `isTaskAlreadyAssigned(id)`: some entry's Task_ID is `===` to `id`. */
  predicate IsTaskAlreadyAssigned(history: seq<Entry>, id: JsValue) {
    exists i :: 0 <= i < |history| && StrictEquals(history[i].taskId, id)
  }

  /** `parseInt(taskID)` as a JavaScript value. */
  function ParsedId(taskId: string): (r: JsValue)
    ensures !r.Str?
  {
    match ParseInt(taskId)
    case None => NaN
    case Some(v) => Num(v)
  }

  /** The server stores Task_ID as an integer column, and the client appends
      `parseInt(taskID)`: no entry's Task_ID is a string. */
  predicate NoStringTaskIds(history: seq<Entry>) {
    forall i :: 0 <= i < |history| ==> !history[i].taskId.Str?
  }

  /** The check as written passes the text of the Task ID input, a string. */
  predicate AsWrittenAlreadyAssigned(history: seq<Entry>, taskId: string) {
    IsTaskAlreadyAssigned(history, Str(taskId))
  }

  /** As written, the check never fires: a string is never `===` to a number. */
  lemma AsWrittenGuardNeverFires(history: seq<Entry>, taskId: string)
    requires NoStringTaskIds(history)
    ensures !AsWrittenAlreadyAssigned(history, taskId)
  {
  }

  /** Typing the id of a task that has an entry: the check as written lets it
      through, the check on the parsed id stops it. */
  lemma AsWrittenMissesDuplicate(history: seq<Entry>, n: nat)
    requires NoStringTaskIds(history)
    requires exists i :: 0 <= i < |history| && history[i].taskId == Num(n)
    ensures !AsWrittenAlreadyAssigned(history, ToDecimal(n))
    ensures IsTaskAlreadyAssigned(history, ParsedId(ToDecimal(n)))
  {
    AsWrittenGuardNeverFires(history, ToDecimal(n));
    ParseIntOfDecimal(n);
    var i :| 0 <= i < |history| && history[i].taskId == Num(n);
    assert StrictEquals(history[i].taskId, ParsedId(ToDecimal(n)));
  }

  /** No two entries have `===` Task_IDs. */
  predicate DistinctTaskIds(history: seq<Entry>) {
    forall i, j :: 0 <= i < j < |history| ==> !StrictEquals(history[i].taskId, history[j].taskId)
  }

  /** An option of the employee selector. */
  datatype Choice = Choice(value: int, name: string)

  /** `selectedEmployee?.value || recommendedEmployee?.value`; id 0 is falsy. */
  function SelectedId(selected: Option<Choice>, recommended: Option<Choice>): Option<int> {
    if selected.Some? && selected.value.value != 0 then Some(selected.value.value)
    else if recommended.Some? && recommended.value.value != 0 then Some(recommended.value.value)
    else None
  }

  /** `employeeWorkloads[id] || 0` */
  function WorkloadOf(workloads: map<int, int>, id: int): int {
    if id in workloads then workloads[id] else 0
  }

  /** An employee as the client loads it; Current_Workload may be null. */
  datatype EmployeeInfo = EmployeeInfo(id: int, name: string, currentWorkload: Option<int>)

  /** The workload map built by the `forEach` over the fetched employees. */
  function WorkloadsOf(emps: seq<EmployeeInfo>): map<int, int>
    decreases |emps|
  {
    if |emps| == 0 then map[]
    else
      var last := emps[|emps| - 1];
      WorkloadsOf(emps[..|emps| - 1])[last.id := last.currentWorkload.GetOr(0)]
  }

  /** One key per employee id, the last employee with an id deciding its
      value (`Current_Workload || 0`). */
  lemma {:induction false} WorkloadsOfSpec(emps: seq<EmployeeInfo>)
    ensures forall id :: id in WorkloadsOf(emps) <==> exists i :: 0 <= i < |emps| && emps[i].id == id
    ensures forall i :: 0 <= i < |emps| && (forall j :: i < j < |emps| ==> emps[j].id != emps[i].id) ==>
      (emps[i].id in WorkloadsOf(emps) && WorkloadsOf(emps)[emps[i].id] == emps[i].currentWorkload.GetOr(0))
    decreases |emps|
  {
    if |emps| > 0 {
      var pre := emps[..|emps| - 1];
      WorkloadsOfSpec(pre);
      assert forall i :: 0 <= i < |emps| - 1 ==> emps[i] == pre[i];
    }
  }

  /** The selector options, one per employee, in order. */
  function OptionsOf(emps: seq<EmployeeInfo>): seq<Choice> {
    seq(|emps|, i requires 0 <= i < |emps| => Choice(emps[i].id, emps[i].name))
  }

  /** The first option with the given value, as `employees.find` returns it. */
  function FindOption(options: seq<Choice>, id: int): Option<Choice>
    decreases |options|
  {
    if |options| == 0 then None
    else if options[0].value == id then Some(options[0])
    else FindOption(options[1..], id)
  }

  /** `find` gives the first option with the value, and nothing only when no
      option has it. */
  lemma {:induction false} FindOptionSpec(options: seq<Choice>, id: int)
    ensures FindOption(options, id).Some? ==>
      exists k :: 0 <= k < |options| && options[k] == FindOption(options, id).value &&
        options[k].value == id && forall i :: 0 <= i < k ==> options[i].value != id
    ensures FindOption(options, id).None? <==> forall i :: 0 <= i < |options| ==> options[i].value != id
    decreases |options|
  {
    if |options| > 0 && options[0].value != id {
      FindOptionSpec(options[1..], id);
      assert forall i :: 1 <= i < |options| ==> options[i] == options[1..][i - 1];
      if FindOption(options, id).Some? {
        var k :| 0 <= k < |options| - 1 && options[1..][k] == FindOption(options, id).value &&
          options[1..][k].value == id && forall i :: 0 <= i < k ==> options[1..][i].value != id;
        assert options[k + 1] == options[1..][k];
      }
    }
  }

  /** The state of the assignment form. */
  datatype AssignForm = AssignForm(
    taskId: string,
    selected: Option<Choice>,
    recommended: Option<Choice>,
    isNewTask: bool)

  /** The state of the edit form. */
  datatype EditForm = EditForm(
    isEditing: bool,
    editTaskId: JsValue,
    taskHistoryId: JsValue,
    completedDate: Option<int>,
    completionTime: JsValue,
    feedbackScore: JsValue,
    assignedDate: Option<int>)

  /** A snapshot of the component's state. */
  datatype Screen = Screen(
    taskHistory: seq<Entry>,
    loading: bool,
    options: seq<Choice>,
    workloads: map<int, int>,
    form: AssignForm,
    edit: EditForm)

  /** What `GET /get_task/<id>` gave: an error, an empty body, or the task. */
  datatype TaskFetch = FetchFailed | EmptyTask | TaskFound(estimatedTime: Option<int>)

  /** How the two requests that record an assignment ended. */
  datatype SaveResult = SaveOk | SaveConflict | SaveFailed

  datatype AssignOutcome =
    | NeedTaskId | AlreadyAssigned | NeedEmployee
    | FetchError | TaskMissing
    | Assigned | Conflict | SaveError

  /** Which way `handleAssign` goes, `parsed` being `parseInt(taskID)`. The
      already-assigned check compares `parsed`, the Task_ID the new entry
      would hold. */
  function AssignVerdict(s: Screen, parsed: JsValue, fetch: TaskFetch, save: SaveResult): AssignOutcome {
    if s.form.taskId == "" then NeedTaskId
    else if IsTaskAlreadyAssigned(s.taskHistory, parsed) then AlreadyAssigned
    else if SelectedId(s.form.selected, s.form.recommended).None? then NeedEmployee
    else match fetch
      case FetchFailed => FetchError
      case EmptyTask => TaskMissing
      case TaskFound(_) =>
        match save
        case SaveOk => Assigned
        case SaveConflict => Conflict
        case SaveFailed => SaveError
  }

  /** The entry `handleAssign` appends: no completion fields. */
  function NewEntry(employeeId: int, parsed: JsValue, today: int): Entry {
    Entry(Undefined, employeeId, parsed, Some(today), None, Undefined, Undefined)
  }

  /** The state after `handleAssign` and the requests it makes. */
  function AfterAssign(s: Screen, parsed: JsValue, fetch: TaskFetch, save: SaveResult, today: int): Screen {
    match AssignVerdict(s, parsed, fetch, save)
    case AlreadyAssigned => s.(form := s.form.(taskId := ""))
    case FetchError => s.(form := s.form.(taskId := ""))
    case Conflict => s.(form := s.form.(taskId := ""))
    case Assigned =>
      var id := SelectedId(s.form.selected, s.form.recommended).value;
      var increase := WorkloadPerWeek(fetch.estimatedTime.GetOr(0));
      s.(taskHistory := s.taskHistory + [NewEntry(id, parsed, today)],
         workloads := s.workloads[id := WorkloadOf(s.workloads, id) + increase],
         form := AssignForm("", None, None, false))
    case _ => s
  }

  /** The guards in order: an empty id, then an id already in the history
      (which also clears the input), then no employee; none of them touches
      the history or the workloads, and neither do the failures after them. */
  lemma AssignRejections(s: Screen, parsed: JsValue, fetch: TaskFetch, save: SaveResult, today: int)
    ensures s.form.taskId == "" ==> AfterAssign(s, parsed, fetch, save, today) == s
    ensures s.form.taskId != "" && IsTaskAlreadyAssigned(s.taskHistory, parsed) ==>
      AfterAssign(s, parsed, fetch, save, today) == s.(form := s.form.(taskId := ""))
    ensures (s.form.taskId != "" && !IsTaskAlreadyAssigned(s.taskHistory, parsed) &&
             SelectedId(s.form.selected, s.form.recommended).None?) ==>
      AfterAssign(s, parsed, fetch, save, today) == s
    ensures AssignVerdict(s, parsed, fetch, save) != Assigned ==>
      (AfterAssign(s, parsed, fetch, save, today).taskHistory == s.taskHistory &&
       AfterAssign(s, parsed, fetch, save, today).workloads == s.workloads)
  {
  }

  /** A successful assignment appends exactly one entry, for the selected (or
      else the recommended) employee and the parsed task id, and raises only
      that employee's workload, by the task's weekly share. */
  lemma AssignSuccess(s: Screen, parsed: JsValue, fetch: TaskFetch, save: SaveResult, today: int)
    requires AssignVerdict(s, parsed, fetch, save) == Assigned
    ensures var after := AfterAssign(s, parsed, fetch, save, today);
      var id := SelectedId(s.form.selected, s.form.recommended).value;
      id != 0 &&
      (s.form.selected.Some? && s.form.selected.value.value != 0 ==> id == s.form.selected.value.value) &&
      after.taskHistory == s.taskHistory + [NewEntry(id, parsed, today)] &&
      !IsTaskAlreadyAssigned(s.taskHistory, parsed) &&
      after.workloads[id] == WorkloadOf(s.workloads, id) + WorkloadPerWeek(fetch.estimatedTime.GetOr(0)) &&
      (forall k :: k != id ==> (k in after.workloads <==> k in s.workloads)) &&
      (forall k :: k != id && k in s.workloads ==> after.workloads[k] == s.workloads[k]) &&
      after.form == AssignForm("", None, None, false)
  {
  }

  /** With the check on the parsed id, assignments never give two entries
      the same Task_ID. */
  lemma AssignKeepsTaskIdsDistinct(s: Screen, parsed: JsValue, fetch: TaskFetch, save: SaveResult, today: int)
    requires DistinctTaskIds(s.taskHistory)
    ensures DistinctTaskIds(AfterAssign(s, parsed, fetch, save, today).taskHistory)
  {
    if AssignVerdict(s, parsed, fetch, save) == Assigned {
      var h := s.taskHistory;
      var e := NewEntry(SelectedId(s.form.selected, s.form.recommended).value, parsed, today);
      var h' := h + [e];
      forall i, j | 0 <= i < j < |h'| ensures !StrictEquals(h'[i].taskId, h'[j].taskId) {
        if j == |h| {
          assert !StrictEquals(h[i].taskId, e.taskId);
        } else {
          assert h'[i] == h[i] && h'[j] == h[j];
        }
      }
    }
  }

  /** What `handleUpdate` sends to the server: the history row id that ends
      the request's path, and the body. */
  datatype UpdatePayload = UpdatePayload(
    rowId: JsValue,
    employeeId: int,
    taskId: JsValue,
    completedDate: Option<int>,
    completionTime: JsValue,
    feedbackScore: JsValue)

  /** `handleUpdate`'s request: nothing without an edit id and an employee;
      the path ends in the edited row's id, the completed date and feedback
      are sent as entered, and the completion
      time is the one entered, or else the one the dates give. */
  function UpdatePayloadOf(s: Screen): (r: Option<UpdatePayload>)
    ensures r.None? <==> !Truthy(s.edit.editTaskId) || s.form.selected.None?
    ensures r.Some? ==> r.value.rowId == s.edit.taskHistoryId
    ensures r.Some? ==> r.value.employeeId == s.form.selected.value.value && r.value.taskId == s.edit.editTaskId
    ensures r.Some? ==> r.value.completedDate == s.edit.completedDate && r.value.feedbackScore == s.edit.feedbackScore
    ensures r.Some? && Truthy(s.edit.completionTime) ==> r.value.completionTime == s.edit.completionTime
    ensures r.Some? && !Truthy(s.edit.completionTime) ==>
      r.value.completionTime == CompletionTimeJs(s.edit.assignedDate, s.edit.completedDate)
  {
    var e := s.edit;
    if !Truthy(e.editTaskId) || s.form.selected.None? then None
    else Some(UpdatePayload(e.taskHistoryId, s.form.selected.value.value, e.editTaskId, e.completedDate,
                            Or(e.completionTime, CompletionTimeJs(e.assignedDate, e.completedDate)),
                            e.feedbackScore))
  }

  /** The edit form `handleEdit` opens on an entry. */
  function EditFormOf(entry: Entry): (f: EditForm)
    ensures f.isEditing && f.editTaskId == entry.taskId && f.taskHistoryId == entry.rowId
    ensures Truthy(entry.completionTime) ==> f.completionTime == entry.completionTime
    ensures !Truthy(entry.completionTime) ==>
      f.completionTime == CompletionTimeJs(entry.assignedDate, entry.completedDate)
    ensures Truthy(entry.feedbackScore) ==> f.feedbackScore == entry.feedbackScore
    ensures !Truthy(entry.feedbackScore) ==> f.feedbackScore == Str("")
    ensures f.completedDate == entry.completedDate && f.assignedDate == entry.assignedDate
  {
    EditForm(true, entry.taskId, entry.rowId, entry.completedDate,
             Or(entry.completionTime, CompletionTimeJs(entry.assignedDate, entry.completedDate)),
             Or(entry.feedbackScore, Str("")), entry.assignedDate)
  }

  /** Whether `/update_task_history/${v}` reaches the `<int:id>` route: only
      the decimal text of a non-negative integer does; "undefined" and "null"
      match no route. */
  predicate RoutableRowId(v: JsValue) {
    match v
    case Num(n) => n >= 0
    case Str(t) => |t| > 0 && forall i :: 0 <= i < |t| ==> '0' <= t[i] <= '9'
    case _ => false
  }

  /** An entry `handleAssign` appended has no row id until the history is
      fetched again, so an update opened on it is sent to a path no route
      matches. */
  lemma AppendedEntryNotRoutable(employeeId: int, parsed: JsValue, today: int)
    ensures EditFormOf(NewEntry(employeeId, parsed, today)).taskHistoryId == Undefined
    ensures !RoutableRowId(EditFormOf(NewEntry(employeeId, parsed, today)).taskHistoryId)
  {
  }

  /** The data the screen loads when it mounts. */
  datatype LoadResult = LoadFailed | Loaded(history: seq<Entry>, emps: seq<EmployeeInfo>)

  /** What `handleRecommend` hears back: a message, a best employee, or an error. */
  datatype RecommendReply = ReplyMessage | ReplyBest(employeeId: int) | ReplyError

  /** The component. Its `useState` hooks are grouped: the loaded data, the
      assignment form and the edit form. */
  class AssignmentScreen {
    var taskHistory: seq<Entry>
    var loading: bool
    var options: seq<Choice>
    var workloads: map<int, int>
    var form: AssignForm
    var edit: EditForm

    function View(): Screen
      reads this
    {
      Screen(taskHistory, loading, options, workloads, form, edit)
    }

    ghost predicate Valid()
      reads this
    {
      NoStringTaskIds(taskHistory)
    }

    /** The initial `useState` values. */
    constructor ()
      ensures Valid()
      ensures View() == Screen([], true, [], map[], AssignForm("", None, None, false),
                               EditForm(false, Null, Null, None, Str(""), Str(""), None))
    {
      taskHistory := [];
      loading := true;
      options := [];
      workloads := map[];
      form := AssignForm("", None, None, false);
      edit := EditForm(false, Null, Null, None, Str(""), Str(""), None);
    }

    /** The mount effect: store the history, build the workload map with the
        `forEach` loop, build the selector options, stop loading. */
    method Load(result: LoadResult)
      requires Valid()
      requires result.Loaded? ==> NoStringTaskIds(result.history)
      modifies this
      ensures Valid()
      ensures result.LoadFailed? ==> View() == old(View()).(loading := false)
      ensures result.Loaded? ==> View() == old(View()).(taskHistory := result.history,
        workloads := WorkloadsOf(result.emps), options := OptionsOf(result.emps), loading := false)
    {
      if result.LoadFailed? {
        loading := false;
        return;
      }
      var emps := result.emps;
      var m: map<int, int> := map[];
      var i := 0;
      while i < |emps|
        invariant 0 <= i <= |emps|
        invariant m == WorkloadsOf(emps[..i])
      {
        m := m[emps[i].id := emps[i].currentWorkload.GetOr(0)];
        assert emps[..i + 1][..i] == emps[..i];
        i := i + 1;
      }
      assert emps[..i] == emps;
      taskHistory, workloads, options, loading := result.history, m, OptionsOf(emps), false;
    }

    method OnTaskIdChange(text: string)
      requires Valid()
      modifies this
      ensures Valid()
      ensures View() == old(View()).(form := old(form).(taskId := text))
    {
      form := form.(taskId := text);
    }

    method OnSelectEmployee(choice: Option<Choice>)
      requires Valid()
      modifies this
      ensures Valid()
      ensures View() == old(View()).(form := old(form).(selected := choice))
    {
      form := form.(selected := choice);
    }

    /** `handleRecommend`: with a task id and a best employee among the
        options, that employee becomes both recommended and selected. */
    method HandleRecommend(reply: RecommendReply)
      requires Valid()
      modifies this
      ensures Valid()
      ensures form.taskId == "" || !reply.ReplyBest? || FindOption(options, reply.employeeId).None? ==>
        View() == old(View())
      ensures form.taskId != "" && reply.ReplyBest? && FindOption(options, reply.employeeId).Some? ==>
        var c := Choice(reply.employeeId, FindOption(options, reply.employeeId).value.name);
        View() == old(View()).(form := old(form).(recommended := Some(c), selected := Some(c)))
    {
      if form.taskId == "" || !reply.ReplyBest? {
        return;
      }
      var found := FindOption(options, reply.employeeId);
      if found.Some? {
        var c := Choice(reply.employeeId, found.value.name);
        form := form.(recommended := Some(c), selected := Some(c));
      }
    }

    /** `handleAssign`, with the outcomes of its requests as parameters and
        `today` the day of the assignment. */
    method HandleAssign(fetch: TaskFetch, save: SaveResult, today: int) returns (outcome: AssignOutcome)
      requires Valid()
      modifies this
      ensures Valid()
      ensures outcome == AssignVerdict(old(View()), ParsedId(old(form.taskId)), fetch, save)
      ensures View() == AfterAssign(old(View()), ParsedId(old(form.taskId)), fetch, save, today)
    {
      ghost var verdict := AssignVerdict(View(), ParsedId(form.taskId), fetch, save);
      if form.taskId == "" {
        return NeedTaskId;
      }
      var parsed := ParsedId(form.taskId);
      if IsTaskAlreadyAssigned(taskHistory, parsed) {
        form := form.(taskId := "");
        return AlreadyAssigned;
      }
      var id := SelectedId(form.selected, form.recommended);
      if id.None? {
        return NeedEmployee;
      }
      match fetch {
        case FetchFailed =>
          form := form.(taskId := "");
          return FetchError;
        case EmptyTask =>
          return TaskMissing;
        case TaskFound(estimated) =>
          var increase := WorkloadPerWeek(estimated.GetOr(0));
          var load := WorkloadOf(workloads, id.value) + increase;
          match save {
            case SaveOk =>
              taskHistory := taskHistory + [NewEntry(id.value, parsed, today)];
              workloads := workloads[id.value := load];
              form := AssignForm("", None, None, false);
              return Assigned;
            case SaveConflict =>
              form := form.(taskId := "");
              return Conflict;
            case SaveFailed =>
              return SaveError;
          }
      }
    }

    /** `handleEdit(entry)`: open the edit form on an entry, selecting its
        employee. */
    method HandleEdit(entry: Entry)
      requires Valid()
      modifies this
      ensures Valid()
      ensures View() == old(View()).(edit := EditFormOf(entry),
        form := old(form).(selected := FindOption(old(options), entry.employeeId)))
    {
      edit := EditFormOf(entry);
      form := form.(selected := FindOption(options, entry.employeeId));
    }

    /** `handleUpdate`: send the request; on success close the form and, when
        the history can be fetched again, show the fresh history. `saved` is
        whether the server accepts a request that reaches the route; one sent
        to a path no route matches fails. */
    method HandleUpdate(saved: bool, refetched: Option<seq<Entry>>) returns (sent: Option<UpdatePayload>)
      requires Valid()
      requires refetched.Some? ==> NoStringTaskIds(refetched.value)
      modifies this
      ensures Valid()
      ensures sent == UpdatePayloadOf(old(View()))
      ensures sent.None? || !RoutableRowId(sent.value.rowId) || !saved ==> View() == old(View())
      ensures sent.Some? && RoutableRowId(sent.value.rowId) && saved ==> View() == old(View()).(
        edit := old(edit).(isEditing := false, editTaskId := Null),
        taskHistory := if refetched.Some? then refetched.value else old(taskHistory))
    {
      sent := UpdatePayloadOf(View());
      if sent.None? || !RoutableRowId(sent.value.rowId) || !saved {
        return;
      }
      edit := edit.(isEditing := false, editTaskId := Null);
      if refetched.Some? {
        taskHistory := refetched.value;
      }
    }

    /** The completed-date input: store the day; derive the hours from the
        dates only while no completion time is entered. */
    method OnCompletedDateChange(day: Option<int>)
      requires Valid()
      modifies this
      ensures Valid()
      ensures View() == old(View()).(edit := old(edit).(completedDate := day,
        completionTime := if Truthy(old(edit.completionTime)) then old(edit.completionTime)
                          else CompletionTimeJs(old(edit.assignedDate), day)))
    {
      if Truthy(edit.completionTime) {
        edit := edit.(completedDate := day);
      } else {
        edit := edit.(completedDate := day, completionTime := CompletionTimeJs(edit.assignedDate, day));
      }
    }

    /** The completion-time input: `parseInt(v) || 0` hours; with an
        assigned date, the completed date follows. */
    method OnCompletionTimeChange(text: string)
      requires Valid()
      modifies this
      ensures Valid()
      ensures var hours := ParseInt(text).GetOr(0);
        View() == old(View()).(edit := old(edit).(completionTime := Num(hours),
          completedDate := if old(edit.assignedDate).Some? then AdjustDateByHours(old(edit.assignedDate), hours)
                           else old(edit.completedDate)))
    {
      var hours := ParseInt(text).GetOr(0);
      if edit.assignedDate.Some? {
        edit := edit.(completionTime := Num(hours), completedDate := AdjustDateByHours(edit.assignedDate, hours));
      } else {
        edit := edit.(completionTime := Num(hours));
      }
    }

    /** The feedback input stores the clamped score. */
    method OnFeedbackChange(text: string)
      requires Valid()
      modifies this
      ensures Valid()
      ensures View() == old(View()).(edit := old(edit).(feedbackScore := ClampFeedback(ParseInt(text))))
    {
      edit := edit.(feedbackScore := ClampFeedback(ParseInt(text)));
    }

    /** `handleNewTaskAssignment`: open an empty assignment form. */
    method HandleNewTaskAssignment()
      requires Valid()
      modifies this
      ensures Valid()
      ensures View() == old(View()).(edit := old(edit).(isEditing := false),
        form := AssignForm("", None, None, true))
    {
      edit := edit.(isEditing := false);
      form := AssignForm("", None, None, true);
    }
  }
}
