/** The three tables of the Flask service (ML/combinedtemp.py): tasks,
    employees and the task history. Skill lists are comma-separated strings,
    as stored. Nullable columns that the modelled code treats specially are
    `Option`s. */
module Records {
  import opened Values

  datatype Task = Task(
    id: int,
    description: string,
    requiredSkills: string,
    priority: int,
    estimatedTime: int,
    complexity: int)

  datatype Employee = Employee(
    id: int,
    name: string,
    role: string,
    skills: string,
    experience: int,
    availability: int,
    currentWorkload: int,
    performanceScore: int)

  /** One assignment record; `id` is the auto-assigned primary key. The date,
      time and score columns may hold NULL (`None`). */
  datatype HistoryRow = HistoryRow(
    id: int,
    employeeId: int,
    taskId: int,
    assignedDate: Option<string>,
    completedDate: Option<string>,
    completionTime: Option<int>,
    feedbackScore: Option<int>)
}
