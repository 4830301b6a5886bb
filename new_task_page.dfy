/** The new-task form (WebTaskFlow/src/components/NewTaskPage.jsx): the
    inputs write one field each, the skills selector writes the list of
    skills, and the submitted task joins the skills with ",". */
module NewTaskPage {
  import opened SkillText

  /** The `task` state: every input holds its text; the skills are a list. */
  datatype Draft = Draft(
    taskId: string,
    description: string,
    requiredSkills: seq<string>,
    priority: string,
    estimatedTime: string,
    complexity: string)

  /** The inputs that call `handleChange`, by their `name`. */
  datatype Field = TaskIdField | DescriptionField | PriorityField | EstimatedTimeField | ComplexityField

  /** `{ ...task, [name]: value }`: the named field takes the value. */
  function WithField(d: Draft, f: Field, value: string): (r: Draft)
    ensures r.requiredSkills == d.requiredSkills
    ensures r.taskId == (if f == TaskIdField then value else d.taskId)
    ensures r.description == (if f == DescriptionField then value else d.description)
    ensures r.priority == (if f == PriorityField then value else d.priority)
    ensures r.estimatedTime == (if f == EstimatedTimeField then value else d.estimatedTime)
    ensures r.complexity == (if f == ComplexityField then value else d.complexity)
  {
    match f
    case TaskIdField => d.(taskId := value)
    case DescriptionField => d.(description := value)
    case PriorityField => d.(priority := value)
    case EstimatedTimeField => d.(estimatedTime := value)
    case ComplexityField => d.(complexity := value)
  }

  /** The body posted to `/add_task`. */
  datatype Submission = Submission(
    taskId: string,
    description: string,
    requiredSkills: string,
    priority: string,
    estimatedTime: string,
    complexity: string)

  /** `{ ...task, Required_Skills: task.Required_Skills.join(",") }` */
  function SubmissionOf(d: Draft): Submission {
    Submission(d.taskId, d.description, Join(d.requiredSkills, ","), d.priority, d.estimatedTime, d.complexity)
  }

  /** The joined skills read back as exactly the selection, when no skill
      holds a comma or edge whitespace: the task table's badges (split on ","
      and `trim()`) are the selected skills in order, and the server's skill
      set (split on "," and `strip()`) is the set of selected skills. No
      selection is sent as "". */
  lemma SubmissionRoundTrip(d: Draft)
    requires forall i :: 0 <= i < |d.requiredSkills| ==>
      ',' !in d.requiredSkills[i] && Trimmed(d.requiredSkills[i], JavaScript) && Trimmed(d.requiredSkills[i], Python)
    ensures |d.requiredSkills| == 0 ==> SubmissionOf(d).requiredSkills == ""
    ensures |d.requiredSkills| > 0 ==> Pieces(SubmissionOf(d).requiredSkills, JavaScript) == d.requiredSkills
    ensures |d.requiredSkills| > 0 ==> SkillSet(SubmissionOf(d).requiredSkills) == set x | x in d.requiredSkills
    ensures SubmissionOf(d).taskId == d.taskId && SubmissionOf(d).description == d.description
    ensures SubmissionOf(d).priority == d.priority && SubmissionOf(d).estimatedTime == d.estimatedTime
    ensures SubmissionOf(d).complexity == d.complexity
  {
    if |d.requiredSkills| > 0 {
      PiecesOfJoin(d.requiredSkills, JavaScript);
      PiecesOfJoin(d.requiredSkills, Python);
    }
  }

  class NewTaskForm {
    var task: Draft

    /** The initial state: every field empty. */
    constructor ()
      ensures task == Draft("", "", [], "", "", "")
    {
      task := Draft("", "", [], "", "", "");
    }

    /** `handleChange(e)` for the input named `f`. */
    method HandleChange(f: Field, value: string)
      modifies this
      ensures task == WithField(old(task), f, value)
    {
      task := WithField(task, f, value);
    }

    /** `handleSkillsChange(selected)`: the selected values, in order. */
    method HandleSkillsChange(selected: seq<string>)
      modifies this
      ensures task == old(task).(requiredSkills := selected)
    {
      task := task.(requiredSkills := selected);
    }

    /** `handleSubmit`: the body it posts; the form itself is left as it is. */
    method HandleSubmit() returns (body: Submission)
      ensures body == SubmissionOf(task)
    {
      body := SubmissionOf(task);
    }
  }
}
