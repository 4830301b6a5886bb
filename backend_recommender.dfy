/** The recommender of the CSV-backed service in backend/model_file.py. Its skill
    match splits on exactly ", " and does not strip; its training guard also
    needs a non-empty history table; its route takes the task id from the
    JSON body, and answers with every candidate sorted by skill match score,
    then by the classifier's confidence. The classifier loaded from disk is
    the parameter `predict`, a function of the four features the route feeds
    it (skill match score, workload, experience, availability). */
module BackendRecommender {
  import opened Values
  import opened Records
  import opened SkillText
  import opened PairMatching
  import opened Ranking
  import MlRecommender

  /** `set(s.split(", "))`: the pieces are kept as they are, without stripping. */
  function ExactSkills(s: string): (r: set<string>)
    ensures |r| > 0
    ensures forall x :: x in r <==> x in Split(s, ", ")
  {
    var ps := Split(s, ", ");
    var r := set x | x in ps;
    assert ps[0] in r;
    r
  }

  /** The share of the task's skills `t` found in the employee's skills `e`. */
  function Share(e: set<string>, t: set<string>): (r: real)
    requires |t| > 0
    ensures 0.0 <= r <= 1.0
    ensures r == 0.0 <==> e * t == {}
    ensures r == 1.0 <==> t <= e
  {
    SubsetCardinality(e * t, t);
    assert t <= e <==> e * t == t;
    |e * t| as real / |t| as real
  }

  /** `skill_match`: no lower floor of 0.1, unlike the Flask service's. */
  function SkillMatch(employeeSkills: string, taskSkills: string): (r: real)
    ensures 0.0 <= r <= 1.0
    ensures r == 0.0 <==> ExactSkills(employeeSkills) * ExactSkills(taskSkills) == {}
    ensures r == 1.0 <==> ExactSkills(taskSkills) <= ExactSkills(employeeSkills)
  {
    Share(ExactSkills(employeeSkills), ExactSkills(taskSkills))
  }

  /** Holding more of the task's skills never lowers the score. */
  lemma ShareMonotone(e1: set<string>, e2: set<string>, t: set<string>)
    requires |t| > 0
    requires e1 * t <= e2 * t
    ensures Share(e1, t) <= Share(e2, t)
  {
    SubsetCardinality(e1 * t, e2 * t);
  }

  function MatchScore(e: Employee, t: Task): real {
    SkillMatch(e.skills, t.requiredSkills)
  }

  /** The columns `train_model` fits the scaler and the classifier on, in order. */
  const TrainingFeatures: seq<string> := ["Skill_Match_Score", "Current_Workload", "Experience",
    "Availability", "Priority", "Estimated_Time", "Task_Complexity", "Feedback_Score"]

  /** The columns the route hands to `scaler.transform`, in order. */
  const CandidateFeatures: seq<string> := ["Skill_Match_Score", "Current_Workload", "Experience", "Availability"]

  /** The rows `train_test_split(..., test_size=0.2)` holds out of `n`: a fifth, rounded up. */
  function HeldOut(n: nat): (k: nat)
    ensures 5 * k - 5 < n <= 5 * k
  {
    (n + 4) / 5
  }

  /** `full_data`: the matched pairs, left-merged with the feedback recorded
      for them (the same merge as the Flask service's). */
  function FullData(tasks: seq<Task>, employees: seq<Employee>, history: seq<HistoryRow>): seq<MlRecommender.Row> {
    MlRecommender.Rows(AllPairs(tasks, employees, MatchScore), history)
  }

  /** Every matched pair gives at least one row of `full_data`, and no pair none. */
  lemma {:induction false} FullDataCoversPairs(ps: seq<Pair<Employee, Task>>, history: seq<HistoryRow>)
    ensures |MlRecommender.Rows(ps, history)| >= |ps|
    decreases |ps|
  {
    if |ps| > 0 {
      FullDataCoversPairs(ps[..|ps| - 1], history);
    }
  }

  /** What `train_model` ends in: no data; an exception, because `full_data`
      has fewer than two rows and so `fit_transform` or `train_test_split`
      finds nothing to work on; or a model trained on `trainRows` of the
      `rows` rows of `full_data`, the matched pairs being `matches`, with the
      scaler fitted on `features`. */
  datatype TrainOutcome =
    | NoData
    | TrainingFailed
    | Trained(matches: seq<Pair<Employee, Task>>, rows: nat, trainRows: nat, features: seq<string>)

  /** `train_model`: the empty-table guard, the match loops, the merge and the split. */
  method TrainModel(employees: seq<Employee>, tasks: seq<Task>, history: seq<HistoryRow>)
    returns (o: TrainOutcome)
    ensures o == NoData <==> |employees| == 0 || |tasks| == 0 || |history| == 0
    ensures o == TrainingFailed <==> (|employees| > 0 && |tasks| > 0 && |history| > 0 &&
      |FullData(tasks, employees, history)| <= 1)
    ensures (|employees| > 0 && |tasks| > 0 && |history| > 0 &&
      forall i, j :: 0 <= i < |tasks| && 0 <= j < |employees| ==>
        ExactSkills(employees[j].skills) * ExactSkills(tasks[i].requiredSkills) == {}) ==> o == TrainingFailed
    ensures o.Trained? ==>
      o.matches == AllPairs(tasks, employees, MatchScore) && 0 < |o.matches| <= o.rows &&
      o.rows == |FullData(tasks, employees, history)| && o.rows >= 2 &&
      o.trainRows == o.rows - HeldOut(o.rows) && 1 <= o.trainRows < o.rows &&
      o.features == TrainingFeatures
  {
    if |employees| == 0 || |tasks| == 0 || |history| == 0 {
      return NoData;
    }
    NoPairs(tasks, employees, MatchScore);
    var matches := MatchAll(tasks, employees, MatchScore);
    var fullData := MlRecommender.Rows(matches, history);
    FullDataCoversPairs(matches, history);
    var n := |fullData|;
    // fit_transform raises on no rows, train_test_split on a training part of none
    if n - HeldOut(n) == 0 {
      return TrainingFailed;
    }
    o := Trained(matches, n, n - HeldOut(n), TrainingFeatures);
  }

  /** The scaler `train_model` writes was fitted on eight columns and the
      route transforms four of them, so with those files the route fails at
      the transform. */
  lemma ScalerMismatch()
    ensures |TrainingFeatures| == 8 && |CandidateFeatures| == 4
    ensures CandidateFeatures == TrainingFeatures[..4]
    ensures CandidateFeatures != TrainingFeatures
  {
  }

  /** The `Task_ID` of the request body: absent or null, a number, or a string. */
  datatype RequestId = Absent | IntId(n: int) | StrId(s: string)

  /** `not task_id` in Python. */
  predicate Falsy(id: RequestId) {
    id == Absent || id == IntId(0) || id == StrId("")
  }

  /** The first task with id `n`. */
  function FirstTask(tasks: seq<Task>, n: int): (r: Option<Task>)
    ensures r.None? <==> forall i :: 0 <= i < |tasks| ==> tasks[i].id != n
    ensures r.Some? ==> exists i :: (0 <= i < |tasks| && tasks[i] == r.value && tasks[i].id == n &&
      forall j :: 0 <= j < i ==> tasks[j].id != n)
    decreases |tasks|
  {
    if |tasks| == 0 then None
    else if tasks[0].id == n then Some(tasks[0])
    else
      var r := FirstTask(tasks[1..], n);
      if r.Some? then
        var i :| 0 <= i < |tasks[1..]| && tasks[1..][i] == r.value && tasks[1..][i].id == n &&
          forall j :: 0 <= j < i ==> tasks[1..][j].id != n;
        assert tasks[i + 1] == r.value;
        assert forall j :: 1 <= j < i + 1 ==> tasks[j] == tasks[1..][j - 1];
        r
      else
        assert forall i :: 1 <= i < |tasks| ==> tasks[i] == tasks[1..][i - 1];
        r
  }

  /** `tasks[tasks['Task_ID'] == task_id].iloc[0]`: an integer id compared with
      the integer column; a string id equals no integer, so it finds nothing. */
  function LookupTask(tasks: seq<Task>, id: RequestId): (r: Option<Task>)
    ensures r.None? <==> !id.IntId? || forall i :: 0 <= i < |tasks| ==> tasks[i].id != id.n
    ensures r.Some? ==> id.IntId? && r == FirstTask(tasks, id.n)
  {
    match id
    case IntId(n) => FirstTask(tasks, n)
    case _ => None
  }

  /** Feature columns fed to the classifier: skill match score, workload,
      experience, availability. */
  type Predictor = (real, int, int, int) -> real

  /** One entry of `matches`, with the `Prediction_Score` column added. */
  datatype Candidate = Candidate(
    employeeId: int,
    name: string,
    skillMatchScore: real,
    currentWorkload: int,
    experience: int,
    availability: int,
    predictionScore: real)

  function CandidateOf(e: Employee, score: real, predict: Predictor): Candidate {
    Candidate(e.id, e.name, score, e.currentWorkload, e.experience, e.availability,
              predict(score, e.currentWorkload, e.experience, e.availability))
  }

  /** The candidates of task `t`: the employees with a positive score, in
      employee-table order. */
  function CandidatesFor(t: Task, es: seq<Employee>, predict: Predictor): seq<Candidate> {
    var ps := TaskPairs(t, es, MatchScore);
    seq(|ps|, k requires 0 <= k < |ps| => CandidateOf(ps[k].employee, ps[k].score, predict))
  }

  /** One more employee adds their candidate exactly when they score above zero. */
  lemma CandidatesStep(t: Task, es: seq<Employee>, e: Employee, predict: Predictor)
    ensures CandidatesFor(t, es + [e], predict) ==
      CandidatesFor(t, es, predict) +
      (if MatchScore(e, t) > 0.0 then [CandidateOf(e, MatchScore(e, t), predict)] else [])
  {
    assert (es + [e])[..|es|] == es;
    var ps := TaskPairs(t, es, MatchScore);
    var ps' := TaskPairs(t, es + [e], MatchScore);
    assert ps' == ps + (if MatchScore(e, t) > 0.0 then [Pair(e, t, MatchScore(e, t))] else []);
  }

  /** The candidates are exactly the employees who share a skill with the
      task, each with their score; there are none exactly when nobody does. */
  lemma CandidatesExact(t: Task, es: seq<Employee>, predict: Predictor)
    ensures forall c :: c in CandidatesFor(t, es, predict) ==> (c.skillMatchScore > 0.0 &&
      exists j :: 0 <= j < |es| && c == CandidateOf(es[j], MatchScore(es[j], t), predict))
    ensures forall j :: 0 <= j < |es| && MatchScore(es[j], t) > 0.0 ==>
      CandidateOf(es[j], MatchScore(es[j], t), predict) in CandidatesFor(t, es, predict)
    ensures CandidatesFor(t, es, predict) == [] <==>
      forall j :: 0 <= j < |es| ==> ExactSkills(es[j].skills) * ExactSkills(t.requiredSkills) == {}
  {
    var ps := TaskPairs(t, es, MatchScore);
    var cs := CandidatesFor(t, es, predict);
    TaskPairsMembers(t, es, MatchScore);
    forall c | c in cs
      ensures c.skillMatchScore > 0.0
      ensures exists j :: 0 <= j < |es| && c == CandidateOf(es[j], MatchScore(es[j], t), predict)
    {
      var k :| 0 <= k < |cs| && cs[k] == c;
      assert ps[k] in ps;
      var j :| 0 <= j < |es| && es[j] == ps[k].employee;
      assert c == CandidateOf(es[j], MatchScore(es[j], t), predict);
    }
    forall j | 0 <= j < |es| && MatchScore(es[j], t) > 0.0
      ensures CandidateOf(es[j], MatchScore(es[j], t), predict) in cs
    {
      var p := Pair(es[j], t, MatchScore(es[j], t));
      assert p in ps;
      var k :| 0 <= k < |ps| && ps[k] == p;
      assert cs[k] == CandidateOf(es[j], MatchScore(es[j], t), predict);
    }
    if cs != [] {
      assert cs[0] in cs;
    }
  }

  /** `sort_values(["Skill_Match_Score", "Prediction_Score"], ascending=[False, False])` */
  function CandidateKey(c: Candidate): (k: seq<real>)
    ensures |k| == 2
  {
    [c.skillMatchScore, c.predictionScore]
  }

  /** The sorted candidates are a permutation of the candidates, in order; the
      first is the first candidate that none ranks before, so it has the
      highest skill match score and, among those, the highest prediction. */
  lemma RankedCandidates(cs: seq<Candidate>)
    requires |cs| > 0
    ensures multiset(SortDesc(cs, CandidateKey)) == multiset(cs)
    ensures Ordered(SortDesc(cs, CandidateKey), CandidateKey)
    ensures |SortDesc(cs, CandidateKey)| == |cs|
    ensures SortDesc(cs, CandidateKey)[0] == cs[FirstBestIndex(cs, CandidateKey, 2)]
    ensures forall c :: c in cs ==>
      var best := SortDesc(cs, CandidateKey)[0];
      c.skillMatchScore <= best.skillMatchScore &&
      (c.skillMatchScore == best.skillMatchScore ==> c.predictionScore <= best.predictionScore)
  {
    assert Uniform(CandidateKey, 2);
    SortIsPermutation(cs, CandidateKey);
    SortIsOrdered(cs, CandidateKey, 2);
    SortHeadIsFirstBest(cs, CandidateKey, 2);
    var best := SortDesc(cs, CandidateKey)[0];
    forall c | c in cs
      ensures c.skillMatchScore <= best.skillMatchScore
      ensures c.skillMatchScore == best.skillMatchScore ==> c.predictionScore <= best.predictionScore
    {
      var i :| 0 <= i < |cs| && cs[i] == c;
      assert !Above(CandidateKey(c), CandidateKey(best));
      if c.skillMatchScore == best.skillMatchScore {
        assert !Above(CandidateKey(c)[1..], CandidateKey(best)[1..]);
        assert CandidateKey(c)[1..][0] == c.predictionScore;
        assert CandidateKey(best)[1..][0] == best.predictionScore;
      }
    }
  }

  /** The answers of the route: 400; 500 when loading the model files or
      scaling the candidates raises; 404; the "no matching skills" message;
      and the recommendation with all candidates. */
  datatype Response =
    | MissingTaskId
    | ServerError
    | TaskNotFound
    | NoMatchingSkills
    | Recommended(best: Candidate, all: seq<Candidate>)

  /** `recommend_employee`. `filesLoad` says whether both pickles can be
      read; `scalerFeatures` are the columns the loaded scaler was fitted on,
      which `transform` demands of the candidate table. */
  method RecommendEmployee(id: RequestId, filesLoad: bool, scalerFeatures: seq<string>,
                           tasks: seq<Task>, employees: seq<Employee>, predict: Predictor)
    returns (r: Response)
    ensures r == MissingTaskId <==> Falsy(id)
    ensures r == TaskNotFound <==> !Falsy(id) && filesLoad && LookupTask(tasks, id).None?
    ensures r == NoMatchingSkills <==> (!Falsy(id) && filesLoad && LookupTask(tasks, id).Some? &&
      CandidatesFor(LookupTask(tasks, id).value, employees, predict) == [])
    ensures r == ServerError <==> (!Falsy(id) && (!filesLoad ||
      (LookupTask(tasks, id).Some? && CandidatesFor(LookupTask(tasks, id).value, employees, predict) != [] &&
       scalerFeatures != CandidateFeatures)))
    ensures r.Recommended? ==>
      var cs := CandidatesFor(LookupTask(tasks, id).value, employees, predict);
      scalerFeatures == CandidateFeatures &&
      |cs| > 0 && multiset(r.all) == multiset(cs) && Ordered(r.all, CandidateKey) &&
      r.best == r.all[0] && r.best == cs[FirstBestIndex(cs, CandidateKey, 2)] &&
      forall c :: c in cs ==> c.skillMatchScore <= r.best.skillMatchScore
  {
    if Falsy(id) {
      return MissingTaskId;
    }
    if !filesLoad {
      return ServerError;
    }
    var task := LookupTask(tasks, id);
    if task.None? {
      return TaskNotFound;
    }
    var t := task.value;
    var matches := [];
    var i := 0;
    while i < |employees|
      invariant 0 <= i <= |employees|
      invariant matches == CandidatesFor(t, employees[..i], predict)
    {
      var e := employees[i];
      var score := SkillMatch(e.skills, t.requiredSkills);
      if score > 0.0 {
        matches := matches + [CandidateOf(e, score, predict)];
      }
      CandidatesStep(t, employees[..i], e, predict);
      assert employees[..i + 1] == employees[..i] + [e];
      i := i + 1;
    }
    assert employees[..i] == employees;
    if |matches| == 0 {
      return NoMatchingSkills;
    }
    if scalerFeatures != CandidateFeatures {
      return ServerError;
    }
    RankedCandidates(matches);
    var sorted := SortDesc(matches, CandidateKey);
    r := Recommended(sorted[0], sorted);
  }
}
