/** The "create task with AI" form
    (fullstack/src/features/tasks/components/create-task-form-ai.tsx): the
    validation schema, the skills selector, the numeric inputs and the
    two-step submit that first proposes a candidate and then creates the
    task. The `onTaskAdded` and `onCancel` callbacks are recorded as the list
    of values emitted and the number of cancel calls. */
module AiTaskForm {
  import opened Values

  /** The form's values; `None` is `undefined` (Task ID) or no date. The
      number inputs hold any number `valueAsNumber` gives, fractions included. */
  datatype FormValues = FormValues(
    taskId: Option<real>,
    description: string,
    requiredSkills: seq<string>,
    priority: real,
    dueDate: Option<int>,
    taskComplexity: real)

  /** zod's `.int()`: a number without a fractional part. */
  predicate IsInteger(x: real) {
    x.Floor as real == x
  }

  /** `createTaskSchema`: an integer Task ID of at most 99999, a description,
      one to three skills, an integer priority from 1 to 10, a due date and an
      integer complexity of at most 10. Neither the Task ID nor the complexity
      has a lower bound. */
  predicate SchemaAccepts(v: FormValues) {
    && v.taskId.Some? && IsInteger(v.taskId.value) && v.taskId.value <= 99999.0
    && |v.description| >= 1
    && 1 <= |v.requiredSkills| <= 3
    && IsInteger(v.priority) && 1.0 <= v.priority <= 10.0
    && v.dueDate.Some?
    && IsInteger(v.taskComplexity) && v.taskComplexity <= 10.0
  }

  /** The `defaultValues`, `today` being the date when the form is created. */
  function Defaults(today: int): FormValues {
    FormValues(None, "", [], 5.0, Some(today), 5.0)
  }

  /** The defaults are never accepted: no skill is selected (nor a Task ID
      given). Any values without a skill are rejected; a negative Task ID or
      complexity is accepted; a fractional number in any of the three number
      fields is rejected. */
  lemma SchemaFacts(today: int, v: FormValues, id: int, complexity: int, x: real)
    ensures !SchemaAccepts(Defaults(today))
    ensures |v.requiredSkills| == 0 ==> !SchemaAccepts(v)
    ensures SchemaAccepts(v) && id <= 99999 && complexity <= 10 ==>
      SchemaAccepts(v.(taskId := Some(id as real), taskComplexity := complexity as real))
    ensures !IsInteger(x) ==>
      !SchemaAccepts(v.(taskId := Some(x))) && !SchemaAccepts(v.(priority := x)) &&
      !SchemaAccepts(v.(taskComplexity := x))
  {
  }

  /** `e.target.valueAsNumber || 0`: the number the input holds, or 0 when
      no number can be read from it (`None`, NaN). */
  function NumberInput(parsed: Option<real>): real {
    parsed.GetOr(0.0)
  }

  /** Text no number can be read from becomes 0: as a Task ID it passes the
      schema, as a priority it does not. */
  lemma UnreadableNumberIsZero(v: FormValues)
    requires SchemaAccepts(v)
    ensures NumberInput(None) == 0.0
    ensures SchemaAccepts(v.(taskId := Some(NumberInput(None))))
    ensures !SchemaAccepts(v.(priority := NumberInput(None)))
  {
  }

  /** The skills selector's `onChange`: more than three skills are refused. */
  function SelectSkills(v: FormValues, selected: seq<string>): (r: FormValues)
    ensures |selected| <= 3 ==> r == v.(requiredSkills := selected)
    ensures |selected| > 3 ==> r == v
    ensures |v.requiredSkills| <= 3 ==> |r.requiredSkills| <= 3
  {
    if |selected| <= 3 then v.(requiredSkills := selected) else v
  }

  /** The component's state and what its callbacks have received. */
  datatype FormState = FormState(
    values: FormValues,
    candidate: Option<string>,
    emitted: seq<FormValues>,
    cancels: nat)

  datatype SubmitOutcome = Rejected | CandidateProposed | Created

  /** `!selectedCandidate`: no candidate, or the empty name. */
  predicate NoCandidate(candidate: Option<string>) {
    candidate.None? || candidate.value == ""
  }

  /** Which way a submit goes. */
  function SubmitVerdict(st: FormState): SubmitOutcome {
    if !SchemaAccepts(st.values) then Rejected
    else if NoCandidate(st.candidate) then CandidateProposed
    else Created
  }

  /** The state after a submit: invalid values change nothing; the first
      valid submit proposes "Aniket"; the next emits the values once, resets
      the form to `defaults`, clears the candidate and calls `onCancel`. */
  function AfterSubmit(st: FormState, defaults: FormValues): FormState {
    match SubmitVerdict(st)
    case Rejected => st
    case CandidateProposed => st.(candidate := Some("Aniket"))
    case Created => FormState(defaults, None, st.emitted + [st.values], st.cancels + 1)
  }

  /** Two valid submits from a form with no candidate create the task once:
      the first emits nothing, the second emits exactly the values. */
  lemma TwoStepSubmit(st: FormState, defaults: FormValues)
    requires SchemaAccepts(st.values) && st.candidate.None?
    ensures AfterSubmit(st, defaults).emitted == st.emitted
    ensures AfterSubmit(st, defaults).candidate == Some("Aniket")
    ensures AfterSubmit(AfterSubmit(st, defaults), defaults) ==
      FormState(defaults, None, st.emitted + [st.values], st.cancels + 1)
  {
  }

  /** However many submits, every emitted value passed the schema. */
  lemma EmittedValuesAreValid(st: FormState, defaults: FormValues)
    requires forall i :: 0 <= i < |st.emitted| ==> SchemaAccepts(st.emitted[i])
    ensures forall i :: 0 <= i < |AfterSubmit(st, defaults).emitted| ==>
      SchemaAccepts(AfterSubmit(st, defaults).emitted[i])
  {
  }

  class AiTaskFormState {
    const defaults: FormValues
    var values: FormValues
    var candidate: Option<string>
    var emitted: seq<FormValues>
    var cancels: nat

    function View(): FormState
      reads this
    {
      FormState(values, candidate, emitted, cancels)
    }

    constructor (today: int)
      ensures defaults == Defaults(today)
      ensures View() == FormState(Defaults(today), None, [], 0)
    {
      defaults := Defaults(today);
      values := Defaults(today);
      candidate := None;
      emitted := [];
      cancels := 0;
    }

    /** The Task ID input. */
    method OnTaskIdInput(parsed: Option<real>)
      modifies this
      ensures View() == old(View()).(values := old(values).(taskId := Some(NumberInput(parsed))))
    {
      values := values.(taskId := Some(NumberInput(parsed)));
    }

    method OnDescriptionInput(text: string)
      modifies this
      ensures View() == old(View()).(values := old(values).(description := text))
    {
      values := values.(description := text);
    }

    method OnSkillsSelect(selected: seq<string>)
      modifies this
      ensures View() == old(View()).(values := SelectSkills(old(values), selected))
    {
      if |selected| <= 3 {
        values := values.(requiredSkills := selected);
      }
    }

    method OnPriorityInput(parsed: Option<real>)
      modifies this
      ensures View() == old(View()).(values := old(values).(priority := NumberInput(parsed)))
    {
      values := values.(priority := NumberInput(parsed));
    }

    method OnDueDateInput(day: Option<int>)
      modifies this
      ensures View() == old(View()).(values := old(values).(dueDate := day))
    {
      values := values.(dueDate := day);
    }

    method OnComplexityInput(parsed: Option<real>)
      modifies this
      ensures View() == old(View()).(values := old(values).(taskComplexity := NumberInput(parsed)))
    {
      values := values.(taskComplexity := NumberInput(parsed));
    }

    /** `form.handleSubmit(handleCreateClick)` */
    method Submit() returns (outcome: SubmitOutcome)
      modifies this
      ensures outcome == SubmitVerdict(old(View()))
      ensures View() == AfterSubmit(old(View()), defaults)
    {
      if !SchemaAccepts(values) {
        return Rejected;
      }
      if NoCandidate(candidate) {
        candidate := Some("Aniket");
        return CandidateProposed;
      }
      emitted := emitted + [values];
      values := defaults;
      candidate := None;
      cancels := cancels + 1;
      return Created;
    }

    /** The Cancel button: only the candidate is cleared. */
    method Cancel()
      modifies this
      ensures View() == old(View()).(candidate := None)
    {
      candidate := None;
    }
  }
}
