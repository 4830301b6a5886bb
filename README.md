# TaskFlow.ai task assignment, modelled in Dafny

TaskFlow.ai recommends an employee for a task and records the assignment. This
project models the path from skill matching to recorded assignment:

- **The two recommenders.** The Flask service in `ML/combinedtemp.py` and the
  CSV-backed service in `backend/model_file.py` each compute a skill-match
  score and keep the employee-task pairs that score above zero. Their
  `recommend_employee` routes filter the candidates of one task, sort them and
  return the first. The trained classifier is a parameter `predict` that gives
  each candidate its `Prediction_Score`.
- **The record store of the Flask service.** The partial-patch routes
  `update_task`, `update_employee` and `update_task_history`, and the
  append-only `add_task_history`.
- **The assignment screen of the web client** (`TaskAssignment.jsx`):
  - the date and workload arithmetic;
  - the already-assigned check;
  - the assign, edit and update handlers, as a class whose fields are the
    component's state.
- **The smaller client pieces:**
  - the AI task form: its schema and two-step confirm;
  - the new-task form and its skill-list serialisation;
  - the task table's "Is Assigned" column and priority colour;
  - the project overview's role tally;
  - the user list's delete filter;
  - the modal open/close store.

Modules:

- `Values`: Option, JavaScript values, truthiness, `===`, `||` and an
  order-keeping filter.
- `SkillText`: `split`, `strip`/`trim` and `join` on skill strings.
- `Records`: the three server tables.
- `Ranking`: multi-column `sort_values(...).iloc[0]`, as a stable
  lexicographic sort.
- `PairMatching`: the nested task/employee loop.
- `MlRecommender` and `BackendRecommender`: the two services' recommenders.
- `RecordStore`: the store class and its patch and insert routes.
- `JsParse`: `parseInt`.
- One module per client component: `TaskAssignment`, `AiTaskForm`,
  `AiTaskModal`, `NewTaskPage`, `TasksPage`, `ProjectOverview` and
  `UsersPage`.

Data representations:

- Dates on the client are milliseconds since the epoch. `None` stands for an
  empty date field. A calendar-day string is the millisecond of its UTC
  midnight.
- HTTP replies and the user's answers to dialogs are method parameters.
- Status codes are result datatypes.

Two things the code does not do:

- It computes no weighted fitness score. The recommenders rank by the
  classifier's confidence and by data columns, and that is what is modelled.
- The server does not reject a second assignment of a task:
  `add_task_history` accepts duplicates (see
  `RecordStore.DuplicateTaskIdAccepted`). The only guard is the client's
  check, modelled in `TaskAssignment`.

## Model

| member | source | states |
|---|---|---|
| Values.Truthy | WebTaskFlow/src/components/TaskAssignment.jsx:220 | JavaScript truthiness: undefined, null, 0, NaN and "" are falsy; every other number and string is truthy |
| Values.StrictEquals | WebTaskFlow/src/components/TaskAssignment.jsx:65 | `===`: values of one kind with the same content; NaN equals nothing, and a number never equals a string |
| Values.Or | WebTaskFlow/src/components/TaskAssignment.jsx:226 | `a \|\| b` is `a` when `a` is truthy and `b` otherwise |
| Values.StrictEqualsIsEqualityButNaN | WebTaskFlow/src/components/TaskAssignment.jsx:65 | `===` is value equality except that NaN equals nothing; a number is never `===` to a string |
| Values.Filter | WebTaskFlow/src/components/UsersPage.jsx:49 | the filter keeps exactly the elements satisfying the predicate and is no longer than its input |
| Values.FilterAppend | WebTaskFlow/src/components/UsersPage.jsx:49 | filtering a concatenation filters each part in order: kept elements keep their relative order |
| Values.FilterCount | WebTaskFlow/src/components/UsersPage.jsx:49 | every occurrence of a kept value is kept and every occurrence of a dropped value is dropped |
| SkillText.SplitFrom | ML/combinedtemp.py:348 | splitting never yields an empty list |
| SkillText.Split | ML/combinedtemp.py:348 | `str.split(sep)` yields at least one piece (`"".split(",")` is `[""]`) |
| SkillText.IsSpace | ML/combinedtemp.py:348 | the characters `str.strip()` and `trim()` remove: the whitespace both share, the separators U+001C-U+001F and U+0085 for Python only, and U+FEFF for JavaScript only |
| SkillText.Strip | ML/combinedtemp.py:348 | `strip()`/`trim()`: the leading and then the trailing whitespace of the runtime removed |
| SkillText.Join | WebTaskFlow/src/components/NewTaskPage.jsx:49 | `join(sep)`: the pieces with the separator between neighbours; no piece gives "", one piece gives itself |
| SkillText.StripLeftSpec | ML/combinedtemp.py:348 | the left strip removes exactly the leading whitespace of the runtime (Python `str.strip` or JavaScript `trim`): what it drops is whitespace, and the result starts with a non-space or is empty |
| SkillText.StripRightSpec | ML/combinedtemp.py:348 | the right strip removes exactly the trailing whitespace of the runtime |
| SkillText.StripTrimmed | ML/combinedtemp.py:348 | a string with no whitespace at either end is unchanged by the strip |
| SkillText.StripIsTrimmed | ML/combinedtemp.py:348 | the strip leaves no edge whitespace and is idempotent |
| SkillText.StripDiffers | WebTaskFlow/src/components/TasksPage.jsx:111 | the two runtimes disagree: Python strips U+001F and keeps U+FEFF, JavaScript's `trim` does the opposite |
| SkillText.SplitFromPlain | ML/combinedtemp.py:348 | text without the separator stays one piece |
| SkillText.SplitFromPiece | ML/combinedtemp.py:348 | a separator ends the current piece and splitting resumes after it |
| SkillText.SplitJoin | WebTaskFlow/src/components/NewTaskPage.jsx:49 | splitting the `join` of a non-empty list on the same one-character separator gives the list back when no element contains it |
| SkillText.Pieces | ML/combinedtemp.py:348-349 | one piece per comma-split piece, in order, each stripped by the runtime's rule and left with no edge whitespace |
| SkillText.SkillSet | ML/combinedtemp.py:348-349 | the skill set is non-empty and holds exactly the pieces stripped by Python's rule |
| SkillText.PiecesOfJoin | WebTaskFlow/src/components/NewTaskPage.jsx:47-50 | reading back a joined skill list (split on "," and strip, in either runtime) gives exactly the list, when no skill has a comma or edge whitespace of that runtime |
| SkillText.SkillSetOfJoin | ML/combinedtemp.py:348-349 | the skill set of a joined list is the set of its trimmed elements |
| SkillText.SkillSetIgnoresOrderRepeatsAndSpacing | ML/combinedtemp.py:348-349 | two lists whose elements trim to the same values give the same skill set, whatever their order, repetitions or spacing around the commas |
| Ranking.Above | ML/combinedtemp.py:469-472 | one key sorts strictly before another: greater in the first column that differs, each column descending |
| Ranking.AboveTransitive | ML/combinedtemp.py:469-472 | "sorts strictly before" on keys is transitive |
| Ranking.AboveIrreflexive | ML/combinedtemp.py:469-472 | no key sorts strictly before itself |
| Ranking.NotAboveTransitive | ML/combinedtemp.py:469-472 | on keys of one width, "does not sort before" is transitive, so the order is a total preorder |
| Ranking.AboveAsymmetric | ML/combinedtemp.py:469-472 | no two keys each sort strictly before the other |
| Ranking.FirstBestIndex | ML/combinedtemp.py:474 | the chosen index is the first row that no row sorts strictly before: every earlier row sorts strictly after it |
| Ranking.SortDesc | backend/model_file.py:139 | `sort_values` as a stable sort: descending by key, rows with equal keys keeping their input order |
| Ranking.InsertCount | backend/model_file.py:139 | inserting a row adds exactly that row to the list |
| Ranking.InsertOrdered | backend/model_file.py:139 | inserting a row into an ordered list keeps it ordered |
| Ranking.SortIsPermutation | backend/model_file.py:139 | the sorted candidates are a permutation of the candidates |
| Ranking.SortIsOrdered | backend/model_file.py:139 | no later row of the sorted list sorts strictly before an earlier one |
| Ranking.SortHeadIsFirstBest | ML/combinedtemp.py:469-474 | the head of the stable sort is the first row that no row sorts strictly before |
| PairMatching.TaskPairs | ML/combinedtemp.py:377-380 | the inner loop: the triples of one task, in employee order, for the employees scoring above zero |
| PairMatching.AllPairs | ML/combinedtemp.py:376-380 | the nested loops: each task's triples in task order, so the list is task-major and employee-minor |
| PairMatching.TaskPairsMembers | ML/combinedtemp.py:377-380 | for one task, exactly the employees with a positive score are kept, with that score |
| PairMatching.AllPairsMembers | ML/combinedtemp.py:376-380 | the kept triples are exactly the (employee, task) combinations with a positive score |
| PairMatching.NoPairs | ML/combinedtemp.py:382-383 | no triple is kept exactly when no employee scores above zero on any task |
| PairMatching.PairWitness | ML/combinedtemp.py:376-380 | a kept triple of a task with a property comes from an employee scoring above zero on such a task |
| PairMatching.PairOfWitness | ML/combinedtemp.py:376-380 | an employee scoring above zero on a task with a property yields a kept triple of such a task |
| PairMatching.SomePairOf | ML/combinedtemp.py:376-380 | some kept triple concerns a task with a property exactly when some employee scores above zero on such a task |
| PairMatching.AllPairsAppend | ML/combinedtemp.py:376-380 | the triples are task-major: those of earlier tasks precede those of later tasks |
| PairMatching.MatchAll | ML/combinedtemp.py:375-380 | the nested loops build exactly the task-major, employee-minor list of positively scored triples |
| MlRecommender.ShareScore | ML/combinedtemp.py:350-356 | the score is 0 exactly when the sets are disjoint, otherwise in [0.1, 1], and 1 exactly when every required skill is held |
| MlRecommender.ShareScoreMonotone | ML/combinedtemp.py:350-356 | holding more of the required skills never lowers the score |
| MlRecommender.SkillMatch | ML/combinedtemp.py:347-356 | `skill_match` is 0 exactly when the trimmed skill sets share nothing, otherwise at least 0.1 and at most 1, and 1 exactly when the task's skills are all held |
| MlRecommender.PairHistory | ML/combinedtemp.py:402-406 | the history rows the left merge on (Employee_ID, Task_ID) attaches to one pair, in history order |
| MlRecommender.Rows | ML/combinedtemp.py:385-410 | `full_data`: the merged rows of every pair, in pair order |
| MlRecommender.Dataset | ML/combinedtemp.py:369-410 | `prepare_dataset`: nothing when the task or employee table is empty or no pair scores above zero, otherwise the merged rows |
| MlRecommender.PairRows | ML/combinedtemp.py:402-410 | the left merge gives a pair one row per history row of that pair, carrying its feedback (missing counts 0), or one row with feedback 0 when there is none |
| MlRecommender.RowsMembers | ML/combinedtemp.py:385-410 | every data-set row comes from a kept pair, and every kept pair has a row |
| MlRecommender.PrepareDataset | ML/combinedtemp.py:369-410 | the data set is the merged rows of the matched pairs; there is none exactly when no employee shares a skill with any task (so always when a table is empty), and otherwise it is non-empty |
| MlRecommender.Candidates | ML/combinedtemp.py:457 | the rows whose task has the requested id, in `full_data` order |
| MlRecommender.CandidatesOfPairs | ML/combinedtemp.py:457-458 | the candidate rows of a task come from that task's pairs, and there are none exactly when no pair is of that task |
| MlRecommender.CandidateMembers | ML/combinedtemp.py:457 | for any score, the candidates are stored employees paired with the stored task of that id, with a positive score |
| MlRecommender.NoCandidates | ML/combinedtemp.py:458 | for any score, there are no candidates exactly when no employee scores above zero on a task with that id |
| MlRecommender.CandidateRows | ML/combinedtemp.py:457-459 | every candidate is a stored employee and the task with that id, with a positive skill match; there are none exactly when no employee shares a skill with it |
| MlRecommender.RankKey | ML/combinedtemp.py:469-472 | the sort key has one column per sort column: prediction, negated workload, performance, experience |
| MlRecommender.BestCandidate | ML/combinedtemp.py:469-474 | `iloc[0]` of the sort is the first candidate no candidate ranks before, and no candidate has a higher prediction score |
| MlRecommender.RecommendEmployee | ML/combinedtemp.py:447-486 | 400 exactly when no data set can be built, checked first; 404 exactly when the task is unknown; the message exactly when the task has no candidates; otherwise the first candidate that none ranks before, of that task and a stored employee, with the top prediction score and a positive skill match |
| BackendRecommender.ExactSkills | backend/model_file.py:22-23 | the skill set holds exactly the pieces of a split on ", ", not trimmed |
| BackendRecommender.Share | backend/model_file.py:24 | the share lies in [0, 1], is 0 exactly when there is no overlap and 1 exactly when the task's skills are all held |
| BackendRecommender.SkillMatch | backend/model_file.py:21-24 | `skill_match` lies in [0, 1], is 0 exactly on no overlap and 1 exactly when T ⊆ E, with no 0.1 floor |
| BackendRecommender.ShareMonotone | backend/model_file.py:24 | holding more of the task's skills never lowers the score |
| BackendRecommender.HeldOut | backend/model_file.py:68 | the rows `test_size=0.2` holds out are a fifth of the table, rounded up |
| BackendRecommender.FullData | backend/model_file.py:41-47 | `full_data`: the matched pairs left-merged with their history rows, the same merge as the Flask service's |
| BackendRecommender.FullDataCoversPairs | backend/model_file.py:41-47 | the merged table has at least one row per matched pair |
| BackendRecommender.TrainModel | backend/model_file.py:26-77 | no data exactly when the employee, task or history table is empty; otherwise training raises exactly when the merged table `full_data` has at most one row (no pair scoring above zero is one such case); otherwise the match table is every positive pair, `full_data` has at least two rows, the classifier is fitted on all but the held-out fifth (at least one row, fewer than all), and the scaler on the eight weighted columns |
| BackendRecommender.ScalerMismatch | backend/model_file.py:49-66 | the scaler is fitted on eight columns and the route transforms only the first four, so the two lists differ |
| BackendRecommender.Falsy | backend/model_file.py:91 | `not task_id`: an absent or null id, the number 0 and the empty string |
| BackendRecommender.FirstTask | backend/model_file.py:100 | finds the first task with the id, and nothing exactly when no task has it |
| BackendRecommender.LookupTask | backend/model_file.py:100-102 | a numeric id finds the first task with that id; a string id finds nothing |
| BackendRecommender.CandidatesFor | backend/model_file.py:104-118 | the candidates of a task: each employee scoring above zero, in employee-table order, with its score, workload, experience, availability and prediction |
| BackendRecommender.CandidatesStep | backend/model_file.py:105-115 | one more employee adds their candidate exactly when they score above zero |
| BackendRecommender.CandidatesExact | backend/model_file.py:104-118 | the candidates are exactly the employees with a positive score, each with that score; there are none exactly when nobody shares a skill |
| BackendRecommender.CandidateKey | backend/model_file.py:139 | the sort key has two columns: skill match, then prediction |
| BackendRecommender.RankedCandidates | backend/model_file.py:139-143 | the sorted list is an ordered permutation of the candidates; its head is the first unbeaten candidate, with the highest skill match and, among those, the highest prediction |
| BackendRecommender.RecommendEmployee | backend/model_file.py:86-150 | 400 exactly for a falsy id (0 included); 500 exactly when the model files cannot be loaded, or when there are candidates and the scaler was fitted on other columns than the four it is given; 404 exactly when no task has the id; the message exactly when there is no candidate; otherwise all candidates as a sorted permutation, the best first with maximal skill match |
| RecordStore.ApplyTaskPatch | ML/combinedtemp.py:141-145 | each field present in the body is overwritten, every other field and the id are unchanged |
| RecordStore.MergeTaskPatch | ML/combinedtemp.py:141-145 | the body that acts like two `update_task` bodies sent in turn: per key, the later body's value when it has the key, else the earlier one's |
| RecordStore.TaskPatchLaws | ML/combinedtemp.py:141-145 | an empty body changes nothing; a body sent twice acts as once; two bodies act as one whose later keys win |
| RecordStore.ApplyEmployeePatch | ML/combinedtemp.py:225-231 | each field present is overwritten, the others and the id are unchanged |
| RecordStore.MergeEmployeePatch | ML/combinedtemp.py:225-231 | the body that acts like two `update_employee` bodies sent in turn: per key, the later body's value when it has the key |
| RecordStore.EmployeePatchLaws | ML/combinedtemp.py:225-231 | empty body is the identity; patches are idempotent and compose with later keys winning |
| RecordStore.ApplyHistoryPatch | ML/combinedtemp.py:299-302 | each of the four editable columns takes the body's value when its key is present, null included; id, Employee_ID and Task_ID never change |
| RecordStore.MergeHistoryPatch | ML/combinedtemp.py:299-302 | the body that acts like two `update_task_history` bodies sent in turn: per key, the later body's value when it has the key |
| RecordStore.HistoryPatchLaws | ML/combinedtemp.py:299-302 | empty body is the identity; patches are idempotent and compose with later keys winning |
| RecordStore.NewRows | ML/combinedtemp.py:252-261 | one row per item, in order, with consecutive ids; absent optional keys become null |
| RecordStore.NextId | ML/combinedtemp.py:66 | the next id is positive and above every existing id |
| RecordStore.IndexOfId | ML/combinedtemp.py:294 | finds a row with the id, or reports that none has it |
| RecordStore.AppendKeepsIdsIncreasing | ML/combinedtemp.py:263-264 | appending the new rows keeps the ids positive and increasing |
| RecordStore.DuplicateTaskIdAccepted | ML/combinedtemp.py:246-265 | an item for a task that already has rows is accepted, and that task then has one row more |
| RecordStore.Store.constructor | ML/combinedtemp.py:22-83 | the tables start empty, with every row stored under its own key |
| RecordStore.Store.UpdateTask | ML/combinedtemp.py:134-148 | 404 exactly for an unknown id; otherwise only that task changes, by the patch; the other tables are unchanged |
| RecordStore.Store.UpdateEmployee | ML/combinedtemp.py:218-234 | 404 exactly for an unknown id; otherwise only that employee changes, by the patch |
| RecordStore.Store.UpdateTaskHistory | ML/combinedtemp.py:292-305 | 404 exactly when no row has the id; otherwise the row with that id is patched, the others and the other tables are unchanged |
| RecordStore.Store.AddTaskHistory | ML/combinedtemp.py:246-265 | an item missing Employee_ID, Task_ID or Assigned_Date fails the request with nothing added; otherwise every item is appended as a new row, duplicates included, an Assigned_Date sent as null stored as null |
| JsParse.SkipWhitespace | WebTaskFlow/src/components/TaskAssignment.jsx:158 | the text with the leading whitespace `parseInt` skips removed |
| JsParse.ParseInt | WebTaskFlow/src/components/TaskAssignment.jsx:158 | `parseInt(s, 10)`: after leading whitespace, an optional sign and the run of digits; NaN (nothing) when there is no digit |
| JsParse.ToDecimal | WebTaskFlow/src/components/TaskAssignment.jsx:158 | the decimal text of a number is non-empty and all digits |
| JsParse.DecimalOfToDecimal | WebTaskFlow/src/components/TaskAssignment.jsx:158 | the digits of a number read back as that number |
| JsParse.LeadingDigits | WebTaskFlow/src/components/TaskAssignment.jsx:158 | the digit run `parseInt` reads is no longer than its text |
| JsParse.LeadingDigitsAll | WebTaskFlow/src/components/TaskAssignment.jsx:158 | a text of digits only is read whole |
| JsParse.LeadingDigitsPrefix | WebTaskFlow/src/components/TaskAssignment.jsx:325 | digits followed by a non-digit are read up to that non-digit |
| JsParse.LeadingDigitsRun | WebTaskFlow/src/components/TaskAssignment.jsx:158 | the digit run `parseInt` reads is all digits and stops at the first non-digit |
| JsParse.ParseIntOfDecimal | WebTaskFlow/src/components/TaskAssignment.jsx:158 | `parseInt(String(n)) == n` for every natural number |
| JsParse.ParseIntIgnoresTail | WebTaskFlow/src/components/TaskAssignment.jsx:325 | text after the digits is ignored ("12abc" reads as 12) |
| JsParse.ParseIntOfNegative | WebTaskFlow/src/components/TaskAssignment.jsx:350 | a leading minus gives the negative number |
| TaskAssignment.WorkloadPerWeek | WebTaskFlow/src/components/TaskAssignment.jsx:68-70 | `ceil(h/7)` is the r with 7r − 7 < h ≤ 7r |
| TaskAssignment.WorkloadPerWeekFacts | WebTaskFlow/src/components/TaskAssignment.jsx:68-70 | monotone; 0 for 0, 2 for 14, 3 for 15; non-negative for non-negative hours |
| TaskAssignment.CompletionTime | WebTaskFlow/src/components/TaskAssignment.jsx:32-39 | empty exactly when a date is missing; otherwise the non-negative whole hours r with (r − 1)h < \|finish − start\| ≤ rh |
| TaskAssignment.CompletionTimeSymmetric | WebTaskFlow/src/components/TaskAssignment.jsx:36 | the result does not depend on which date is later |
| TaskAssignment.CompletionTimeOfThreeDays | WebTaskFlow/src/components/TaskAssignment.jsx:32-39 | dates three days apart give 72 |
| TaskAssignment.AdjustDateByHours | WebTaskFlow/src/components/TaskAssignment.jsx:41-46 | empty exactly when the date is missing or hours is 0; otherwise the midnight of the day containing date + hours |
| TaskAssignment.AdjustThenMeasure | WebTaskFlow/src/components/TaskAssignment.jsx:32-46 | for a day and a positive multiple of 24 hours, measuring from the day to the adjusted day gives the hours back |
| TaskAssignment.ClampFeedback | WebTaskFlow/src/components/TaskAssignment.jsx:350 | NaN exactly for unparsable text; otherwise a number in [1, 5], the input itself when already in range, 1 below and 5 above |
| TaskAssignment.ClampFeedbackIdempotent | WebTaskFlow/src/components/TaskAssignment.jsx:350 | clamping a clamped score changes nothing |
| TaskAssignment.ParsedId | WebTaskFlow/src/components/TaskAssignment.jsx:158 | `parseInt(taskID)` is a number or NaN, never a string |
| TaskAssignment.IsTaskAlreadyAssigned | WebTaskFlow/src/components/TaskAssignment.jsx:64-66 | some history entry's Task_ID is `===` to the given value |
| TaskAssignment.AsWrittenAlreadyAssigned | WebTaskFlow/src/components/TaskAssignment.jsx:134 | the check as written: applied to the typed text, a string |
| TaskAssignment.AsWrittenGuardNeverFires | WebTaskFlow/src/components/TaskAssignment.jsx:134 | with numeric stored Task_IDs, the check on the typed string never fires |
| TaskAssignment.AsWrittenMissesDuplicate | WebTaskFlow/src/components/TaskAssignment.jsx:134 | typing the id of a task that has an entry passes the check as written, while the check on the parsed id stops it |
| TaskAssignment.SelectedId | WebTaskFlow/src/components/TaskAssignment.jsx:139-140 | `selectedEmployee?.value \|\| recommendedEmployee?.value`: the selected id unless none or 0, then the recommended one on the same terms, else nothing |
| TaskAssignment.WorkloadsOf | WebTaskFlow/src/components/TaskAssignment.jsx:79-82 | the `forEach` over the employees: each employee's `Current_Workload \|\| 0` stored under its id, later employees overwriting |
| TaskAssignment.WorkloadsOfSpec | WebTaskFlow/src/components/TaskAssignment.jsx:79-82 | the workload map has one key per employee id, valued by the last employee with that id (`Current_Workload \|\| 0`) |
| TaskAssignment.FindOption | WebTaskFlow/src/components/TaskAssignment.jsx:111 | `find`: the first option with the value, or nothing |
| TaskAssignment.FindOptionSpec | WebTaskFlow/src/components/TaskAssignment.jsx:111 | `find` gives the first option with the value, and nothing exactly when no option has it |
| TaskAssignment.AssignVerdict | WebTaskFlow/src/components/TaskAssignment.jsx:129-201 | the branch `handleAssign` takes: empty id, already assigned (on the parsed id), no employee, then the task fetch and the save replies |
| TaskAssignment.NewEntry | WebTaskFlow/src/components/TaskAssignment.jsx:156-160 | the appended entry: the employee, the parsed Task_ID and today's date, with no row id and no completion fields |
| TaskAssignment.AfterAssign | WebTaskFlow/src/components/TaskAssignment.jsx:129-201 | the screen after `handleAssign`: the Task ID cleared on a duplicate, fetch failure or 409; on success the entry appended, the workload raised and the form emptied; otherwise unchanged |
| TaskAssignment.AssignRejections | WebTaskFlow/src/components/TaskAssignment.jsx:129-144 | guards in order: empty id (no change), already assigned (only the id input is cleared), no employee (no change); no outcome but success touches history or workloads |
| TaskAssignment.AssignSuccess | WebTaskFlow/src/components/TaskAssignment.jsx:139-185 | success appends one entry without completion fields for the selected (else recommended) employee, and raises only that employee's workload, by ceil(estimate/7) over a default of 0; the form is cleared |
| TaskAssignment.AssignKeepsTaskIdsDistinct | WebTaskFlow/src/components/TaskAssignment.jsx:134-175 | with the check on the parsed id, an assignment never gives two entries the same Task_ID (one assignment at a time) |
| TaskAssignment.UpdatePayloadOf | WebTaskFlow/src/components/TaskAssignment.jsx:219-228 | nothing exactly without a truthy edit id and an employee; otherwise the row id the request path ends in (the edited entry's), the employee, the edited task id, the completed date and the feedback score as entered, and the completion time entered when truthy, else the one the dates give |
| TaskAssignment.EditFormOf | WebTaskFlow/src/components/TaskAssignment.jsx:203-217 | the edit form opens on the entry's row id, task id, employee, assigned date and completed date; completion time is the entry's when truthy, else derived from its dates; feedback is the entry's or "" |
| TaskAssignment.RoutableRowId | ML/combinedtemp.py:292 | the row ids the Flask route `<int:id>` matches: a non-negative number or a non-empty run of digits |
| TaskAssignment.AppendedEntryNotRoutable | WebTaskFlow/src/components/TaskAssignment.jsx:156-160 | the entry `handleAssign` appends has no row id, so editing it sends its update to `/update_task_history/undefined`, which no route matches |
| TaskAssignment.AssignmentScreen.constructor | WebTaskFlow/src/components/TaskAssignment.jsx:15-29 | the initial state: empty history, loading, no options or workloads, empty forms |
| TaskAssignment.AssignmentScreen.Load | WebTaskFlow/src/components/TaskAssignment.jsx:72-96 | on success the history, the workload map built by the loop, and the options are stored; loading stops either way |
| TaskAssignment.AssignmentScreen.OnTaskIdChange | WebTaskFlow/src/components/TaskAssignment.jsx:389 | only the Task ID text changes |
| TaskAssignment.AssignmentScreen.OnSelectEmployee | WebTaskFlow/src/components/TaskAssignment.jsx:401 | only the selection changes |
| TaskAssignment.AssignmentScreen.HandleRecommend | WebTaskFlow/src/components/TaskAssignment.jsx:98-127 | with a task id and a best employee among the options, that employee becomes recommended and selected; otherwise nothing changes |
| TaskAssignment.AssignmentScreen.HandleAssign | WebTaskFlow/src/components/TaskAssignment.jsx:129-201 | the outcome and new state are those of the assign specification, for the parsed task id |
| TaskAssignment.AssignmentScreen.HandleEdit | WebTaskFlow/src/components/TaskAssignment.jsx:203-217 | opens the edit form on the entry and selects the entry's employee among the options; nothing else changes |
| TaskAssignment.AssignmentScreen.HandleUpdate | WebTaskFlow/src/components/TaskAssignment.jsx:219-248 | sends the update payload to the path of its row id; nothing changes without a payload, when that id is one the route does not match, or on failure; on success the edit form closes, its task id is cleared and the refetched history, if any, is shown |
| TaskAssignment.AssignmentScreen.OnCompletedDateChange | WebTaskFlow/src/components/TaskAssignment.jsx:302-311 | stores the day; the hours are derived from the dates only while none is entered |
| TaskAssignment.AssignmentScreen.OnCompletionTimeChange | WebTaskFlow/src/components/TaskAssignment.jsx:324-333 | stores `parseInt(v) \|\| 0` hours; with an assigned date, the completed date becomes the adjusted day |
| TaskAssignment.AssignmentScreen.OnFeedbackChange | WebTaskFlow/src/components/TaskAssignment.jsx:349-351 | stores the clamped score |
| TaskAssignment.AssignmentScreen.HandleNewTaskAssignment | WebTaskFlow/src/components/TaskAssignment.jsx:250-256 | closes the edit form and opens an empty assignment form |
| AiTaskForm.SchemaAccepts | fullstack/src/features/tasks/components/create-task-form-ai.tsx:50-57 | `createTaskSchema`: an integer Task ID up to 99999, a non-empty description, one to three skills, an integer priority in [1, 10], a due date and an integer complexity up to 10 |
| AiTaskForm.SchemaFacts | fullstack/src/features/tasks/components/create-task-form-ai.tsx:50-57 | the defaults are rejected; any values without a skill are rejected; a negative Task ID or complexity is accepted; a fractional number is rejected in each of the three number fields |
| AiTaskForm.UnreadableNumberIsZero | fullstack/src/features/tasks/components/create-task-form-ai.tsx:113 | an unreadable number (`valueAsNumber` is NaN) becomes 0, which passes as a Task ID and fails as a priority |
| AiTaskForm.SelectSkills | fullstack/src/features/tasks/components/create-task-form-ai.tsx:145-149 | a selection of at most three skills replaces the field; a larger one leaves the values unchanged; at most three skills are ever held |
| AiTaskForm.AfterSubmit | fullstack/src/features/tasks/components/create-task-form-ai.tsx:78-100 | a submit: invalid values change nothing; with no candidate "Aniket" is proposed; otherwise the values are emitted, the form reset, the candidate cleared and `onCancel` called |
| AiTaskForm.TwoStepSubmit | fullstack/src/features/tasks/components/create-task-form-ai.tsx:78-88 | the first valid submit only proposes "Aniket"; the second emits the values exactly once, resets the form, clears the candidate and cancels once |
| AiTaskForm.EmittedValuesAreValid | fullstack/src/features/tasks/components/create-task-form-ai.tsx:100 | only values the schema accepts are ever emitted |
| AiTaskForm.AiTaskFormState.constructor | fullstack/src/features/tasks/components/create-task-form-ai.tsx:65-76 | starts at the defaults, with no candidate, nothing emitted and no cancel |
| AiTaskForm.AiTaskFormState.OnTaskIdInput | fullstack/src/features/tasks/components/create-task-form-ai.tsx:113 | stores the number read, 0 when none |
| AiTaskForm.AiTaskFormState.OnDescriptionInput | fullstack/src/features/tasks/components/create-task-form-ai.tsx:127 | stores the description only |
| AiTaskForm.AiTaskFormState.OnSkillsSelect | fullstack/src/features/tasks/components/create-task-form-ai.tsx:145-149 | applies the three-skill guard to the values; nothing else changes |
| AiTaskForm.AiTaskFormState.OnPriorityInput | fullstack/src/features/tasks/components/create-task-form-ai.tsx:166 | stores the number read, 0 when none |
| AiTaskForm.AiTaskFormState.OnDueDateInput | fullstack/src/features/tasks/components/create-task-form-ai.tsx:179 | stores the picked date only |
| AiTaskForm.AiTaskFormState.OnComplexityInput | fullstack/src/features/tasks/components/create-task-form-ai.tsx:192 | stores the number read, 0 when none |
| AiTaskForm.AiTaskFormState.Submit | fullstack/src/features/tasks/components/create-task-form-ai.tsx:78-100 | invalid values change nothing; with no candidate "Aniket" is proposed; otherwise the values are emitted, the form reset, the candidate cleared and cancel called |
| AiTaskForm.AiTaskFormState.Cancel | fullstack/src/features/tasks/components/create-task-form-ai.tsx:212 | clears the candidate and leaves the values untouched |
| AiTaskModal.ModalStore.constructor | fullstack/src/features/tasks/hooks/use-create-ai-task-modal.ts:10 | the modal starts closed |
| AiTaskModal.ModalStore.Open | fullstack/src/features/tasks/hooks/use-create-ai-task-modal.ts:11-13 | `open` makes the modal open |
| AiTaskModal.ModalStore.Close | fullstack/src/features/tasks/hooks/use-create-ai-task-modal.ts:14-16 | `close` makes the modal closed |
| AiTaskModal.Replay | fullstack/src/features/tasks/hooks/use-create-ai-task-modal.ts:11-16 | after any sequence of calls the last call decides; no call leaves the state as it was |
| AiTaskModal.CallsIdempotent | fullstack/src/features/tasks/hooks/use-create-ai-task-modal.ts:11-16 | repeating the last call changes nothing |
| NewTaskPage.WithField | WebTaskFlow/src/components/NewTaskPage.jsx:33-35 | the named field takes the value; every other field, the skills included, is unchanged |
| NewTaskPage.SubmissionOf | WebTaskFlow/src/components/NewTaskPage.jsx:47-50 | the body posted: the draft with its skill list joined by "," |
| NewTaskPage.SubmissionRoundTrip | WebTaskFlow/src/components/NewTaskPage.jsx:47-50 | an empty selection is sent as ""; otherwise the task table's badges read the joined skills back as the selection, in order, and the server's skill set is the set of the selection; the other fields are sent as stored |
| NewTaskPage.NewTaskForm.constructor | WebTaskFlow/src/components/NewTaskPage.jsx:16-23 | every field starts empty |
| NewTaskPage.NewTaskForm.HandleChange | WebTaskFlow/src/components/NewTaskPage.jsx:33-35 | the task becomes the task with the named field set |
| NewTaskPage.NewTaskForm.HandleSkillsChange | WebTaskFlow/src/components/NewTaskPage.jsx:37-42 | the skills become the selection, in order; nothing else changes |
| NewTaskPage.NewTaskForm.HandleSubmit | WebTaskFlow/src/components/NewTaskPage.jsx:44-50 | the body sent is the task with its skills joined by "," |
| TasksPage.IsAssignedLabel | WebTaskFlow/src/components/TasksPage.jsx:128-133 | "Yes" exactly when some history row has the task's id, "No" otherwise |
| TasksPage.IsAssignedIgnoresCompletion | WebTaskFlow/src/components/TasksPage.jsx:128-133 | with no history every task shows "No"; a row's completion date does not affect the label |
| TasksPage.DisplayedSkills | WebTaskFlow/src/components/TasksPage.jsx:109-112 | one badge per comma-split piece of the task's skills, in order, each trimmed by JavaScript's rule |
| TasksPage.PriorityColour | WebTaskFlow/src/components/TasksPage.jsx:33-40 | "High", "Medium" and "Low" get their colours; any other value gets the grey default |
| TasksPage.StoredPriorityIsGrey | WebTaskFlow/src/components/TasksPage.jsx:117 | integer priorities, the stored type, always get the grey default |
| UsersPage.DisplayedSkills | WebTaskFlow/src/components/UsersPage.jsx:141-146 | one badge per comma-split piece of the user's skills, in order, each trimmed by JavaScript's rule |
| UsersPage.Without | WebTaskFlow/src/components/UsersPage.jsx:49 | exactly the users with another id remain |
| UsersPage.WithoutSpec | WebTaskFlow/src/components/UsersPage.jsx:49 | no user with the id remains, every other user keeps its multiplicity, and the remaining users keep their order |
| UsersPage.StaleDeleteRestores | WebTaskFlow/src/components/UsersPage.jsx:45-55 | a user on the list captured at render, with another id, is on the list the delete stores, even when the current list no longer holds it |
| UsersPage.UsersList.HandleRemove | WebTaskFlow/src/components/UsersPage.jsx:45-55 | after a confirmed, successful delete the list becomes the list captured at render without the deleted id, not the current one filtered; otherwise it is unchanged |
| ProjectOverview.Read | WebTaskFlow/src/components/ProjectOverview.jsx:57 | `roleCounts[role]`: the own value, else what the object inherits under that key |
| ProjectOverview.Incr | WebTaskFlow/src/components/ProjectOverview.jsx:57 | `(v \|\| 0) + 1`: a number plus one, a falsy value as 0, a text with "1" appended |
| ProjectOverview.Bump | WebTaskFlow/src/components/ProjectOverview.jsx:57 | one assignment `roleCounts[role] = ...`: ignored for "__proto__", otherwise the role's incremented value stored |
| ProjectOverview.RoleTally | WebTaskFlow/src/components/ProjectOverview.jsx:54-58 | the `forEach` over the roles, one `Bump` per employee in order |
| ProjectOverview.RoleTallyKeys | WebTaskFlow/src/components/ProjectOverview.jsx:54-58 | the tally's keys are exactly the roles present other than "__proto__", whose assignment the object ignores |
| ProjectOverview.RoleTallyCounts | WebTaskFlow/src/components/ProjectOverview.jsx:54-58 | a role that names nothing inherited maps to the number of employees with it |
| ProjectOverview.TextStep | WebTaskFlow/src/components/ProjectOverview.jsx:57 | for a role that names an inherited method, `(roleCounts[role] \|\| 0) + 1` appends the digit "1" to the text held |
| ProjectOverview.RoleTallyTexts | WebTaskFlow/src/components/ProjectOverview.jsx:54-58 | a role that names an inherited method maps to that function's source text followed by one "1" per employee with it |
| ProjectOverview.RoleTallySpec | WebTaskFlow/src/components/ProjectOverview.jsx:54-58 | the three facts together: keys, numeric counts (at least 1) for ordinary roles, texts for inherited method names |
| ProjectOverview.ProtoRoleDropped | WebTaskFlow/src/components/ProjectOverview.jsx:54-59 | one employee with Role "__proto__" leaves the tally empty, so no role is counted |
| ProjectOverview.ConstructorRoleIsText | WebTaskFlow/src/components/ProjectOverview.jsx:54-58 | one employee with Role "constructor" is counted as the text "function Object() { [native code] }1" |
| ProjectOverview.SumAtBump | WebTaskFlow/src/components/ProjectOverview.jsx:57 | counting one more employee keeps the tally's shape and adds one to the numeric sum over the distinct roles exactly when the role is ordinary and among them |
| ProjectOverview.RoleTallyTotal | WebTaskFlow/src/components/ProjectOverview.jsx:54-58 | the numeric counts sum to the number of employees with an ordinary role, so to the number of employees when every role is ordinary |
| ProjectOverview.Overview.constructor | WebTaskFlow/src/components/ProjectOverview.jsx:29-33 | every statistic starts at zero |
| ProjectOverview.Overview.OnTasks | WebTaskFlow/src/components/ProjectOverview.jsx:43 | the task count is the number of tasks; nothing else changes |
| ProjectOverview.Overview.OnEmployees | WebTaskFlow/src/components/ProjectOverview.jsx:50-64 | the user count, the tally built by the loop (with the object's inherited-key behaviour) and the number of its keys are stored |
| ProjectOverview.Overview.OnHistory | WebTaskFlow/src/components/ProjectOverview.jsx:70 | the assigned count is the number of history rows, not of distinct tasks |
| ProjectOverview.TallyKeysAreRoles | WebTaskFlow/src/components/ProjectOverview.jsx:54-59 | the tally's keys are the employees' roles other than "__proto__" |
| ProjectOverview.EmployeeStatistics | WebTaskFlow/src/components/ProjectOverview.jsx:53-59 | the numeric counts sum to the number of users with an ordinary role, which is the user count when every role is ordinary; the roles count is the number of distinct roles other than "__proto__"; every ordinary role's count is at least 1 |

## Findings

| source | as written | input that shows it | evidently intended | confidence | as-written member | corrected member |
|---|---|---|---|---|---|---|
| WebTaskFlow/src/components/TaskAssignment.jsx:134 | `isTaskAlreadyAssigned(taskID)` compares the typed string with `===` against stored numeric Task_IDs, so it is never true | a history entry with Task_ID 7 and "7" typed into the Task ID field: the guard lets the assignment through | compare the parsed id (`parseInt(taskID)`, the value the new entry stores at line 158), so an already assigned task is refused (for assignments that do not overlap) | not executed | TaskAssignment.AsWrittenMissesDuplicate | TaskAssignment.AssignKeepsTaskIdsDistinct |

`TaskAssignment.AsWrittenAlreadyAssigned` is the check as written, and
`TaskAssignment.AsWrittenGuardNeverFires` shows that it never fires.
`TaskAssignment.AssignVerdict` and `TaskAssignment.AssignmentScreen.HandleAssign`
use the corrected comparison.

## Left out

- HTTP, JSON, SQLAlchemy sessions, SQLite binds, axios, pickle files and CSV
  loading: all I/O. The store is in memory, replies are parameters, and status
  codes are datatypes.
- The RandomForest classifier, the scalers, the float feature-weight
  multiplication and `train_test_split`: foreign numeric code. The
  classifier's confidence is the parameter `predict`. Of training, the model
  keeps the guards, the row counts of the split and the columns the scaler
  is fitted on.
- BackendRecommender.TrainModel: the held-out count is `ceil(0.2 * n)` in
  exact arithmetic, not in floating point; which rows the seeded shuffle
  holds out is not modelled; employee or task tables with repeated ids,
  which multiply the merged rows, are not modelled.
- BackendRecommender.RecommendEmployee: the exceptions the route turns into
  its 500 answer are modelled for unreadable model files and for a scaler
  fitted on other columns; any other exception in the guarded block (a
  non-string Skills cell, a classifier without `predict_proba`, whose 500
  answer is then explicit) is not. With the files `train_model` writes the
  scaler always has eight columns (`BackendRecommender.ScalerMismatch`), so
  every request that reaches the scaling ends in the 500 answer.
- pandas `to_numeric` coercion and the merges with the employee and task
  tables. The rows carry the employee and task records. Numeric columns are
  integers, so coercion has nothing to do.
- The Flask service's history merge can produce more than one row per pair.
  This is modelled, but the ranking then sees each such row as its own
  candidate, exactly as pandas does.
- JavaScript `Date`, time zones and `toISOString`: dates are UTC milliseconds,
  and a day string is its midnight.
- `Promise.all` in `handleAssign`: the history insert and the workload update
  are one step. The success path changes the state and every failure leaves
  the history and workloads unchanged.
- The alerts, `console` output, rendering, charts, animations, scroll
  listeners and navigation. `handleRecommend`'s message and error replies
  change no state and are modelled as such.
- NewTaskPage's skills fetch and react-select's display filter: they only
  feed the selector's options.
- The field-level error messages of the zod schema: the model says only
  whether the values are accepted.
- AiTaskForm.SchemaFacts: the numbers are exact rationals, not IEEE doubles,
  so rounding and numbers beyond double precision are not modelled.
- AiTaskForm.AiTaskFormState: the optional callbacks `onTaskAdded` and
  `onCancel` are taken as present. The app's only user of the form,
  `create-task-modal.tsx`, passes no `onTaskAdded`, so the values the model
  emits go nowhere in the app.
- Python's `str.strip` is modelled with the whitespace of Unicode 15 and
  JavaScript's `trim` with that of ECMAScript 2023; later Unicode versions
  may change these sets.
- JsParse.ParseInt: the `0x` prefix, which `parseInt` reads as hexadecimal,
  is not modelled. The result is an exact integer, while JavaScript's is a
  double: `parseInt("9007199254740993")` is 9007199254740992 in JavaScript.
  Text after the digits, a decimal point included, is ignored as in
  JavaScript.
- JSON `null` in fetched history entries: absent keys are `Undefined`. Stored
  Task_IDs are numbers; booleans and non-integer numbers as ids are not
  modelled.
- MlRecommender.BestCandidate: among candidates with equal sort keys, the
  first in `full_data` order wins, and `full_data` is taken in pair order
  (task-major, then employee order, then history order). That is the order
  pandas 2.2 and later give the inner merges at ML/combinedtemp.py:386.
  Older pandas grouped an inner merge's rows by key in order of first
  appearance, which can put another tied candidate first.
- MlRecommender.RecommendEmployee: likewise, the employee returned among
  tied candidates is the one of pandas 2.2's merge order, as are the orders
  of MlRecommender.Rows and MlRecommender.Candidates.
- TaskAssignment.AssignKeepsTaskIdsDistinct: holds for assignments that do
  not overlap. The check reads the history of the last render, while the
  success callback appends to the current one. Two submits of one Task ID
  before a re-render both pass the check and append two entries with that
  Task_ID; when both name one employee, the workload is raised once, since
  both callbacks start from the workloads of that render.
- TaskAssignment.AssignmentScreen.HandleAssign: likewise, one call runs to
  its end before the next starts; overlapping calls are not modelled.
- ProjectOverview.Overview.OnEmployees: a Role that is null or not a string
  is keyed by its string form in the source; the model's roles are strings.
  The order of `Object.keys` is not modelled, only the key count.
- TasksPage.PriorityColour: the lookup `colors[priority]` also finds
  inherited object keys (such as "constructor"), which the model treats as
  unknown priorities.
- RecordStore.ApplyTaskPatch: a key sent as JSON null stores NULL in the
  column. The model's task record has no null fields (the recommenders read
  every one), so such a key is not modelled.
- RecordStore.ApplyEmployeePatch: likewise, a key sent as JSON null, which
  stores NULL, is not modelled.
- RecordStore.Store.AddTaskHistory: an Employee_ID or Task_ID sent as JSON
  null passes the key check and stores NULL; the model's history rows
  always carry both ids, so such an item is not modelled.
- RecordStore.Store.AddTaskHistory: the single-object form of the body (not a
  list) behaves like a one-item list and is not modelled separately. A body
  that is not JSON is not modelled.
- RecordStore.NextId: SQLite may reuse the id of a deleted last row. The model
  assumes ids only grow, and explicit primary keys in `add_task` and
  `add_employee` are not modelled (those routes are not part of this model).
- The `delete_*` and `clear_*` routes, `deleteProject`, and the employee and
  task insert routes: bulk resets and plain inserts.
- `App.jsx`, `Banner.jsx`, `TaskRow.jsx`, `create-task-modal.tsx`,
  `NewUserPage.jsx` and `EditUserPage.jsx` are not part of this model.
