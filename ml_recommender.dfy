/** The recommender of the Flask service in ML/combinedtemp.py: the skill match
    score, the training data set (every employee-task pair with a positive
    score, widened by the feedback recorded for that pair), and the
    `/recommend_employee/<task_id>` route, which ranks the rows of the task by
    the classifier's confidence and three tie-breaking columns. The trained
    classifier itself is the parameter `predict`: it gives the
    `Prediction_Score` of a row. */
module MlRecommender {
  import opened Values
  import opened Records
  import opened SkillText
  import opened PairMatching
  import opened Ranking

  /** The score of an employee with skill set `e` on a task with skill set
      `t`: the share of `t` found in `e`, raised to at least 0.1 when there is
      any overlap. */
  function ShareScore(e: set<string>, t: set<string>): (r: real)
    requires |t| > 0
    ensures r == 0.0 <==> e * t == {}
    ensures r != 0.0 ==> 0.1 <= r <= 1.0
    ensures r == 1.0 <==> t <= e
  {
    var shared := e * t;
    SubsetCardinality(shared, t);
    if shared == {} then 0.0
    else
      var ratio := |shared| as real / |t| as real;
      assert ratio == 1.0 <==> |shared| == |t|;
      assert t <= e <==> shared == t;
      if ratio < 0.1 then 0.1 else ratio
  }

  /** Sharing more of the task's skills never lowers the score. */
  lemma ShareScoreMonotone(e1: set<string>, e2: set<string>, t: set<string>)
    requires |t| > 0
    requires e1 * t <= e2 * t
    ensures ShareScore(e1, t) <= ShareScore(e2, t)
  {
    var s1 := e1 * t;
    var s2 := e2 * t;
    SubsetCardinality(s1, s2);
    if s1 != {} {
      assert |s1| as real / |t| as real <= |s2| as real / |t| as real;
    }
  }

  /** `skill_match` on the two comma-separated skill strings. */
  function SkillMatch(employeeSkills: string, taskSkills: string): (r: real)
    ensures r == 0.0 <==> SkillSet(employeeSkills) * SkillSet(taskSkills) == {}
    ensures r != 0.0 ==> 0.1 <= r <= 1.0
    ensures r == 1.0 <==> SkillSet(taskSkills) <= SkillSet(employeeSkills)
  {
    ShareScore(SkillSet(employeeSkills), SkillSet(taskSkills))
  }

  function MatchScore(e: Employee, t: Task): real {
    SkillMatch(e.skills, t.requiredSkills)
  }

  /** One row of `full_data`: an employee-task pair with its skill score and
      one feedback score of that pair (0 when there is none). */
  datatype Row = Row(employee: Employee, task: Task, skillMatchScore: real, feedbackScore: int)

  /** The history rows the left merge on (Employee_ID, Task_ID) picks up. */
  function PairHistory(history: seq<HistoryRow>, employeeId: int, taskId: int): seq<HistoryRow> {
    Filter(history, (h: HistoryRow) => h.employeeId == employeeId && h.taskId == taskId)
  }

  /** The rows the left merge makes of one pair: one per recorded history row
      of the pair, in history order, or a single row with feedback 0 when there
      is none; a missing feedback score counts as 0. */
  function PairRows(p: Pair<Employee, Task>, history: seq<HistoryRow>): (r: seq<Row>)
    ensures |r| > 0
    ensures forall k :: 0 <= k < |r| ==>
      r[k].employee == p.employee && r[k].task == p.task && r[k].skillMatchScore == p.score
    ensures var hs := PairHistory(history, p.employee.id, p.task.id);
      (|hs| == 0 ==> r == [Row(p.employee, p.task, p.score, 0)]) &&
      (|hs| > 0 ==> |r| == |hs| && forall k :: 0 <= k < |hs| ==> r[k].feedbackScore == hs[k].feedbackScore.GetOr(0))
  {
    var hs := PairHistory(history, p.employee.id, p.task.id);
    if |hs| == 0 then [Row(p.employee, p.task, p.score, 0)]
    else seq(|hs|, k requires 0 <= k < |hs| => Row(p.employee, p.task, p.score, hs[k].feedbackScore.GetOr(0)))
  }

  /** `full_data`: the rows of all pairs, in pair order. */
  function Rows(ps: seq<Pair<Employee, Task>>, history: seq<HistoryRow>): seq<Row>
    decreases |ps|
  {
    if |ps| == 0 then [] else Rows(ps[..|ps| - 1], history) + PairRows(ps[|ps| - 1], history)
  }

  /** Every row comes from a pair, and every pair has its first row in `full_data`. */
  lemma {:induction false} RowsMembers(ps: seq<Pair<Employee, Task>>, history: seq<HistoryRow>)
    ensures forall row :: row in Rows(ps, history) ==> Pair(row.employee, row.task, row.skillMatchScore) in ps
    ensures forall k :: 0 <= k < |ps| ==> PairRows(ps[k], history)[0] in Rows(ps, history)
    decreases |ps|
  {
    if |ps| > 0 {
      var ps' := ps[..|ps| - 1];
      var last := PairRows(ps[|ps| - 1], history);
      RowsMembers(ps', history);
      assert Rows(ps, history) == Rows(ps', history) + last;
      forall row | row in Rows(ps, history)
        ensures Pair(row.employee, row.task, row.skillMatchScore) in ps
      {
        if row in last {
          var k :| 0 <= k < |last| && last[k] == row;
          assert Pair(row.employee, row.task, row.skillMatchScore) == ps[|ps| - 1];
        } else {
          assert Pair(row.employee, row.task, row.skillMatchScore) in ps';
        }
      }
      forall k | 0 <= k < |ps| ensures PairRows(ps[k], history)[0] in Rows(ps, history) {
        if k < |ps| - 1 {
          assert ps[k] == ps'[k];
        } else {
          assert last[0] in last;
        }
      }
    }
  }

  /** `prepare_dataset`'s result: nothing when a table is empty or no pair has
      a positive score, the rows otherwise. */
  function Dataset(tasks: seq<Task>, employees: seq<Employee>, history: seq<HistoryRow>): Option<seq<Row>> {
    if |tasks| == 0 || |employees| == 0 then None
    else
      var ps := AllPairs(tasks, employees, MatchScore);
      if ps == [] then None else Some(Rows(ps, history))
  }

  /** `prepare_dataset`, with the match loops of PairMatching. */
  method PrepareDataset(tasks: seq<Task>, employees: seq<Employee>, history: seq<HistoryRow>)
    returns (rows: Option<seq<Row>>)
    ensures rows == Dataset(tasks, employees, history)
    ensures rows.None? <==> forall i, j :: 0 <= i < |tasks| && 0 <= j < |employees| ==>
      SkillMatch(employees[j].skills, tasks[i].requiredSkills) == 0.0
    ensures rows.Some? ==> |rows.value| > 0
  {
    NoPairs(tasks, employees, MatchScore);
    if |tasks| == 0 || |employees| == 0 {
      return None;
    }
    var matches := MatchAll(tasks, employees, MatchScore);
    if |matches| == 0 {
      return None;
    }
    RowsMembers(matches, history);
    assert PairRows(matches[0], history)[0] in Rows(matches, history);
    rows := Some(Rows(matches, history));
  }

  /** `full_data[full_data["Task_ID"] == task_id]` */
  function Candidates(rows: seq<Row>, taskId: int): seq<Row> {
    Filter(rows, (row: Row) => row.task.id == taskId)
  }

  /** The candidate rows of a task come from the pairs of that task, and there
      is a candidate row exactly when some pair is of that task. */
  lemma CandidatesOfPairs(ps: seq<Pair<Employee, Task>>, history: seq<HistoryRow>, taskId: int)
    ensures forall row :: row in Candidates(Rows(ps, history), taskId) ==>
      row.task.id == taskId && Pair(row.employee, row.task, row.skillMatchScore) in ps
    ensures Candidates(Rows(ps, history), taskId) == [] <==> forall k :: 0 <= k < |ps| ==> ps[k].task.id != taskId
  {
    var rows := Rows(ps, history);
    var cs := Candidates(rows, taskId);
    RowsMembers(ps, history);
    if cs != [] {
      assert cs[0] in cs;
      var p := Pair(cs[0].employee, cs[0].task, cs[0].skillMatchScore);
      assert p in ps;
      var k :| 0 <= k < |ps| && ps[k] == p;
      assert ps[k].task.id == taskId;
    } else {
      forall k | 0 <= k < |ps| ensures ps[k].task.id != taskId {
        var row := PairRows(ps[k], history)[0];
        assert row in rows;
        var m :| 0 <= m < |rows| && rows[m] == row;
        assert row.task == ps[k].task;
      }
    }
  }

  /** For any score function, the candidate rows of a task are pairs of a
      stored employee and a stored task of that id with a positive score. */
  lemma CandidateMembers(tasks: seq<Task>, employees: seq<Employee>, history: seq<HistoryRow>,
                         score: (Employee, Task) -> real, taskId: int)
    ensures forall row :: row in Candidates(Rows(AllPairs(tasks, employees, score), history), taskId) ==>
      row.task.id == taskId && row.task in tasks && row.employee in employees &&
      row.skillMatchScore == score(row.employee, row.task) && row.skillMatchScore > 0.0
  {
    AllPairsMembers(tasks, employees, score);
    CandidatesOfPairs(AllPairs(tasks, employees, score), history, taskId);
  }

  /** For any score function, a task has no candidate rows exactly when no
      stored employee scores above zero on a stored task of that id. */
  lemma NoCandidates(tasks: seq<Task>, employees: seq<Employee>, history: seq<HistoryRow>,
                     score: (Employee, Task) -> real, taskId: int)
    ensures Candidates(Rows(AllPairs(tasks, employees, score), history), taskId) == [] <==>
      forall i, j :: 0 <= i < |tasks| && 0 <= j < |employees| && tasks[i].id == taskId ==>
        score(employees[j], tasks[i]) <= 0.0
  {
    var ps := AllPairs(tasks, employees, score);
    var q := (t: Task) => t.id == taskId;
    CandidatesOfPairs(ps, history, taskId);
    SomePairOf(tasks, employees, score, q);
    assert (exists k :: 0 <= k < |ps| && ps[k].task.id == taskId) <==>
      (exists k :: 0 <= k < |ps| && q(ps[k].task));
  }

  /** Every candidate row is a pair of a stored employee and the stored task
      with that id, with a positive skill match score; there is none exactly
      when no employee shares a skill with a task of that id. */
  lemma CandidateRows(tasks: seq<Task>, employees: seq<Employee>, history: seq<HistoryRow>, taskId: int)
    requires Dataset(tasks, employees, history).Some?
    ensures var cs := Candidates(Dataset(tasks, employees, history).value, taskId);
      (forall row :: row in cs ==>
        row.task.id == taskId && row.task in tasks && row.employee in employees &&
        row.skillMatchScore == SkillMatch(row.employee.skills, row.task.requiredSkills) &&
        row.skillMatchScore > 0.0) &&
      (cs == [] <==> forall i, j :: 0 <= i < |tasks| && 0 <= j < |employees| && tasks[i].id == taskId ==>
        SkillSet(employees[j].skills) * SkillSet(tasks[i].requiredSkills) == {})
  {
    CandidateMembers(tasks, employees, history, MatchScore, taskId);
    NoCandidates(tasks, employees, history, MatchScore, taskId);
  }

  /** The sort key of a row: by `Prediction_Score`, then `Current_Workload`
      ascending, then `Performance_Score` and `Experience`. */
  function RankKey(predict: Row -> real, row: Row): (k: seq<real>)
    ensures |k| == 4
  {
    [predict(row), -(row.employee.currentWorkload as real),
     row.employee.performanceScore as real, row.employee.experience as real]
  }

  function KeyOf(predict: Row -> real): Row -> seq<real> {
    (row: Row) => RankKey(predict, row)
  }

  /** The row `sort_values(...).iloc[0]` yields is the first row that no row
      ranks strictly before, and no row has a higher prediction score. */
  lemma BestCandidate(cs: seq<Row>, predict: Row -> real)
    requires |cs| > 0
    ensures SortDesc(cs, KeyOf(predict))[0] == cs[FirstBestIndex(cs, KeyOf(predict), 4)]
    ensures forall c :: c in cs ==> predict(c) <= predict(SortDesc(cs, KeyOf(predict))[0])
  {
    var key := KeyOf(predict);
    assert Uniform(key, 4);
    SortHeadIsFirstBest(cs, key, 4);
    var best := SortDesc(cs, key)[0];
    forall c | c in cs ensures predict(c) <= predict(best) {
      var i :| 0 <= i < |cs| && cs[i] == c;
      assert !Above(key(c), key(best));
    }
  }

  /** The responses of the route: 400, 404, 200 with a message, 200 with the
      best employee. */
  datatype Response =
    | CouldNotTrain
    | TaskNotFound
    | NoMatchingSkills
    | Recommended(best: Row, predictionScore: real)

  /** `Tasks.query.get(task_id)` finds a task. */
  predicate HasTask(tasks: seq<Task>, taskId: int) {
    exists i :: 0 <= i < |tasks| && tasks[i].id == taskId
  }

  /** `recommend_employee(task_id)` */
  method RecommendEmployee(taskId: int, tasks: seq<Task>, employees: seq<Employee>,
                           history: seq<HistoryRow>, predict: Row -> real)
    returns (r: Response)
    ensures Dataset(tasks, employees, history).None? <==> r == CouldNotTrain
    ensures r == TaskNotFound <==> Dataset(tasks, employees, history).Some? && !HasTask(tasks, taskId)
    ensures r == NoMatchingSkills <==>
      Dataset(tasks, employees, history).Some? && HasTask(tasks, taskId) &&
      Candidates(Dataset(tasks, employees, history).value, taskId) == []
    ensures r.Recommended? ==>
      var cs := Candidates(Dataset(tasks, employees, history).value, taskId);
      |cs| > 0 && r.best == cs[FirstBestIndex(cs, KeyOf(predict), 4)] &&
      r.best == SortDesc(cs, KeyOf(predict))[0] &&
      r.predictionScore == predict(r.best) &&
      (forall c :: c in cs ==> predict(c) <= r.predictionScore) &&
      r.best.task.id == taskId && r.best.employee in employees &&
      r.best.skillMatchScore == SkillMatch(r.best.employee.skills, r.best.task.requiredSkills) > 0.0
  {
    var rows := PrepareDataset(tasks, employees, history);
    if rows.None? {
      return CouldNotTrain;
    }
    if !HasTask(tasks, taskId) {
      return TaskNotFound;
    }
    var cs := Candidates(rows.value, taskId);
    if cs == [] {
      return NoMatchingSkills;
    }
    CandidateRows(tasks, employees, history, taskId);
    BestCandidate(cs, predict);
    var best := SortDesc(cs, KeyOf(predict))[0];
    assert best in cs;
    r := Recommended(best, predict(best));
  }
}
