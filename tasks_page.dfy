/** The task table (WebTaskFlow/src/components/TasksPage.jsx): the skill
    badges, the "Is Assigned" column and the priority badge colour. */
module TasksPage {
  import opened Values
  import opened Records
  import opened SkillText

  /** The skills cell: one badge per comma-separated piece of
      Required_Skills, in order, each without edge whitespace. */
  function DisplayedSkills(t: Task): (badges: seq<string>)
    ensures |badges| == |Split(t.requiredSkills, ",")|
    ensures forall i :: 0 <= i < |badges| ==>
      badges[i] == Strip(Split(t.requiredSkills, ",")[i], JavaScript) && Trimmed(badges[i], JavaScript)
  {
    Pieces(t.requiredSkills, JavaScript)
  }

  /** The "Is Assigned" cell: `taskHistory.some(hist => hist.Task_ID === task.Task_ID)`. */
  function IsAssignedLabel(history: seq<HistoryRow>, t: Task): (shown: string)
    ensures shown == "Yes" || shown == "No"
    ensures shown == "Yes" <==> exists i :: 0 <= i < |history| && history[i].taskId == t.id
  {
    if exists i :: 0 <= i < |history| && history[i].taskId == t.id then "Yes" else "No"
  }

  /** With no history every task shows "No"; a row marks its task assigned
      whether or not it has been completed. */
  lemma IsAssignedIgnoresCompletion(history: seq<HistoryRow>, t: Task, k: nat, done: Option<string>)
    requires k < |history|
    ensures IsAssignedLabel([], t) == "No"
    ensures IsAssignedLabel(history[k := history[k].(completedDate := done)], t) == IsAssignedLabel(history, t)
  {
    var h' := history[k := history[k].(completedDate := done)];
    assert forall i :: 0 <= i < |history| ==> h'[i].taskId == history[i].taskId;
  }

  const DefaultColour := "bg-gray-100 text-gray-800"

  /** `getPriorityColor(priority)`: the colour of "High", "Medium" and "Low",
      grey for any other value. */
  function PriorityColour(priority: JsValue): (c: string)
    ensures priority == Str("High") ==> c == "bg-red-100 text-red-800"
    ensures priority == Str("Medium") ==> c == "bg-yellow-100 text-yellow-800"
    ensures priority == Str("Low") ==> c == "bg-green-100 text-green-800"
    ensures priority != Str("High") && priority != Str("Medium") && priority != Str("Low") ==> c == DefaultColour
  {
    match priority
    case Str(s) =>
      if s == "High" then "bg-red-100 text-red-800"
      else if s == "Medium" then "bg-yellow-100 text-yellow-800"
      else if s == "Low" then "bg-green-100 text-green-800"
      else DefaultColour
    case _ => DefaultColour
  }

  /** Priorities are stored as integers, so every task gets the grey badge. */
  lemma StoredPriorityIsGrey(t: Task)
    ensures PriorityColour(Num(t.priority)) == DefaultColour
  {
  }
}
