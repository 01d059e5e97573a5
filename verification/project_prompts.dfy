/** The project prompts (src/prompts/project_prompts.py): project planning,
    portfolio review and project completion.

    As with the task prompts, a failed fetch becomes an error text. */
module ProjectPrompts {
  import opened Wrappers
  import opened Todoist
  import opened Assoc
  import Seqs
  import Text
  import TaskPrompts

  // ---------------------------------------------------------------------------
  // project_planning
  // ---------------------------------------------------------------------------

  /** Names compare equal once both are lower-cased. */
  predicate SameName(p: Project, name: string) {
    Text.Lower(p.name) == Text.Lower(name)
  }

  /** The position of the first project whose name matches `name` regardless of
      case, as `next(...)` over the project list finds it. */
  function FindByName(projects: seq<Project>, name: string): (r: Option<nat>)
    ensures r.Some? ==> r.value < |projects| && SameName(projects[r.value], name)
    ensures r.Some? ==> forall j :: 0 <= j < r.value ==> !SameName(projects[j], name)
    ensures r.None? <==> forall j :: 0 <= j < |projects| ==> !SameName(projects[j], name)
  {
    if |projects| == 0 then None
    else if SameName(projects[0], name) then Some(0)
    else
      match FindByName(projects[1..], name)
      case None => None
      case Some(i) => Some(i + 1)
  }

  /** The search ignores the case of the name it is given. */
  lemma FindByNameIgnoresCase(projects: seq<Project>, name: string)
    ensures FindByName(projects, Text.Lower(name)) == FindByName(projects, name)
  {
    Text.LowerIdempotent(name);
    assert forall j :: 0 <= j < |projects| ==> (SameName(projects[j], Text.Lower(name)) <==> SameName(projects[j], name));
  }

  const PlanningErrorPrefix: string := "Error generating project planning prompt: "

  /** At most this many tasks are listed for an existing project. */
  const TaskListLimit: nat := 10

  function PlanningHead(projectName: string, projectId: string, activeTasks: nat): seq<string> {
    ["# Project Planning: " + projectName, "", "## Current Project Status",
     "- **Project ID**: " + projectId,
     "- **Active Tasks**: " + Text.IntToString(activeTasks),
     "", "### Existing Tasks"]
  }

  /** The note on the tasks left out of the list, if any are. */
  function Overflow(count: nat): seq<string> {
    if count > TaskListLimit then ["... and " + Text.IntToString(count - TaskListLimit) + " more tasks"] else []
  }

  const PlanningQuestions: string :=
      "\n## Project Review Questions\n"
    + "1. What is the current status of this project?\n"
    + "2. What are the next key milestones?\n"
    + "3. Are there any blockers or dependencies?\n"
    + "4. What tasks can be completed this week?\n"
    + "5. Should any tasks be reprioritized or rescheduled?\n"

  /** The lines listed for an existing project: the first ten tasks and the overflow note. */
  function ListedTasks(tasks: seq<Task>): seq<string> {
    Seqs.Map(TaskPrompts.PlanLine, Seqs.Take(tasks, TaskListLimit)) + Overflow(|tasks|)
  }

  /** The plan of a project that exists, given its tasks. */
  function ExistingPlan(projectName: string, project: Project, tasks: seq<Task>): string {
    Text.Unlines(PlanningHead(projectName, project.id, |tasks|) + ListedTasks(tasks)) + PlanningQuestions
  }

  const NewPlanHead: string := "# New Project Planning: "

  const NewPlanTail: string :=
      "\n\n## Project Setup Framework\n"
    + "Since this is a new project, let's plan it thoroughly:\n"
    + "\n### 1. Project Definition\n"
    + "- What is the main goal of this project?\n"
    + "- What does success look like?\n"
    + "- What is the expected timeline?\n"
    + "\n### 2. Task Breakdown\n"
    + "- What are the major phases or milestones?\n"
    + "- What specific tasks need to be completed?\n"
    + "- What is the logical sequence of tasks?\n"
    + "\n### 3. Resource Planning\n"
    + "- What resources (time, tools, people) are needed?\n"
    + "- Are there any external dependencies?\n"
    + "- What is the priority level of this project?\n"
    + "\n### 4. Implementation Strategy\n"
    + "- What tasks should be created first?\n"
    + "- How should tasks be prioritized?\n"
    + "- What labels or due dates should be applied?\n"
    + "\n"
    + "Please help me structure this project with specific, actionable tasks that can be created in Todoist."

  /** The `project_planning` prompt, given the answer of `get_projects()` and the
      answer `get_tasks(project_id=...)` would give for each project id. */
  function ProjectPlanning(projectName: string, projectsFetch: Result<seq<Project>>,
                           tasksOf: string -> Result<seq<Task>>): (r: string)
    ensures projectsFetch.Err? ==> r == PlanningErrorPrefix + projectsFetch.error
    ensures projectsFetch.Ok? && FindByName(projectsFetch.value, projectName).None? ==>
      Text.Extract(NewPlanHead, NewPlanTail, r) == Some(projectName)
    ensures projectsFetch.Ok? && FindByName(projectsFetch.value, projectName).Some? ==>
      var id := projectsFetch.value[FindByName(projectsFetch.value, projectName).value].id;
      tasksOf(id).Err? ==> r == PlanningErrorPrefix + tasksOf(id).error
    ensures Text.StartsWith(r, PlanningErrorPrefix) <==>
      || projectsFetch.Err?
      || (FindByName(projectsFetch.value, projectName).Some?
          && tasksOf(projectsFetch.value[FindByName(projectsFetch.value, projectName).value].id).Err?)
  {
    assert PlanningErrorPrefix[0] == 'E';
    match projectsFetch
    case Err(e) => PlanningErrorPrefix + e
    case Ok(projects) =>
      match FindByName(projects, projectName)
      case None =>
        Text.FillExtract(NewPlanHead, NewPlanTail, projectName);
        var r := Text.Fill(NewPlanHead, NewPlanTail, projectName);
        assert r[0] == '#';
        r
      case Some(i) =>
        match tasksOf(projects[i].id)
        case Err(e) => PlanningErrorPrefix + e
        case Ok(tasks) =>
          var head := PlanningHead(projectName, projects[i].id, |tasks|);
          Text.UnlinesAppend(head, ListedTasks(tasks));
          Text.UnlinesFirst(head);
          var r := ExistingPlan(projectName, projects[i], tasks);
          assert r[0] == '#';
          r
  }

  /** The prompt consults the task list of the matched project only, and no
      task list at all for a new project. */
  lemma ProjectPlanningReadsOnlyMatch(projectName: string, projects: seq<Project>,
                                      tasksOf: string -> Result<seq<Task>>, tasksOf': string -> Result<seq<Task>>)
    requires FindByName(projects, projectName).Some? ==>
      var id := projects[FindByName(projects, projectName).value].id;
      tasksOf(id) == tasksOf'(id)
    ensures ProjectPlanning(projectName, Ok(projects), tasksOf) == ProjectPlanning(projectName, Ok(projects), tasksOf')
  {
  }

  /** Every task is either listed, among the first ten, or counted by the
      overflow note, which is there exactly when more than ten tasks exist. */
  lemma ListedTasksAccount(tasks: seq<Task>)
    ensures var listed := Seqs.Take(tasks, TaskListLimit);
      && (|tasks| > TaskListLimit <==> |Overflow(|tasks|)| == 1)
      && |listed| == (if |tasks| <= TaskListLimit then |tasks| else TaskListLimit)
      && listed == tasks[..|listed|]
      && (|tasks| > TaskListLimit ==>
            Overflow(|tasks|)[0] == "... and " + Text.IntToString(|tasks| - |listed|) + " more tasks")
  {
  }

  lemma ListedTasksOneLine(tasks: seq<Task>)
    requires forall i :: 0 <= i < |tasks| ==> TaskPrompts.OneLinePlanTask(tasks[i])
    ensures Text.AllNoNewline(ListedTasks(tasks))
  {
    var listed := Seqs.Take(tasks, TaskListLimit);
    TaskPrompts.PlanLinesOneLine(listed);
    assert Text.AllNoNewline(Overflow(|tasks|));
  }

  lemma PlanningHeadOneLine(projectName: string, projectId: string, activeTasks: nat)
    requires Text.NoNewline(projectName) && Text.NoNewline(projectId)
    ensures Text.AllNoNewline(PlanningHead(projectName, projectId, activeTasks))
  {
  }

  /** For an existing project the prompt has the status block (with the
      project's id and task count), the listed tasks, the overflow note, then
      the fixed questions. */
  lemma ExistingPlanLines(projectName: string, projects: seq<Project>,
                          tasksOf: string -> Result<seq<Task>>, tasks: seq<Task>)
    requires FindByName(projects, projectName).Some?
    requires var p := projects[FindByName(projects, projectName).value];
      Text.NoNewline(projectName) && Text.NoNewline(p.id) && tasksOf(p.id) == Ok(tasks)
    requires forall i :: 0 <= i < |tasks| ==> TaskPrompts.OneLinePlanTask(tasks[i])
    ensures var p := projects[FindByName(projects, projectName).value];
      Text.Split(ProjectPlanning(projectName, Ok(projects), tasksOf))
      == PlanningHead(projectName, p.id, |tasks|) + ListedTasks(tasks) + Text.Split(PlanningQuestions)
  {
    var p := projects[FindByName(projects, projectName).value];
    var head := PlanningHead(projectName, p.id, |tasks|);
    ListedTasksOneLine(tasks);
    PlanningHeadOneLine(projectName, p.id, |tasks|);
    assert ProjectPlanning(projectName, Ok(projects), tasksOf) == ExistingPlan(projectName, p, tasks);
    Text.SplitUnlines(head + ListedTasks(tasks), PlanningQuestions);
  }

  // ---------------------------------------------------------------------------
  // project_review
  // ---------------------------------------------------------------------------

  /** The per-project figures of the review. */
  datatype Stats = Stats(total: nat, high: nat, overdue: nat, id: string)

  function BelongsTo(projectId: string): Task -> bool {
    (t: Task) => t.projectId == Some(projectId)
  }

  predicate IsHighPriority(t: Task) {
    t.priority >= 3
  }

  /** A task is overdue when it has a due date whose text form mentions "overdue". */
  predicate IsOverdue(t: Task) {
    t.due.Some? && Text.Contains(t.due.value.repr, "overdue")
  }

  function HighIn(projectId: string): Task -> bool {
    (t: Task) => t.projectId == Some(projectId) && IsHighPriority(t)
  }

  function OverdueIn(projectId: string): Task -> bool {
    (t: Task) => t.projectId == Some(projectId) && IsOverdue(t)
  }

  /** The figures of one project over all tasks. */
  function ProjectStats(p: Project, all: seq<Task>): (s: Stats)
    ensures s.id == p.id
    ensures s.total == |Seqs.Positions(BelongsTo(p.id), all)|
    ensures s.high <= s.total && s.overdue <= s.total
  {
    var mine := Seqs.Filter(BelongsTo(p.id), all);
    Seqs.FilterCountsPositions(BelongsTo(p.id), all);
    Stats(|mine|, |Seqs.Filter(IsHighPriority, mine)|, |Seqs.Filter(IsOverdue, mine)|, p.id)
  }

  /** The high-priority and overdue figures count the project's tasks with
      priority at least 3, and those with an overdue due date, among all tasks. */
  lemma ProjectStatsCounts(p: Project, all: seq<Task>)
    ensures ProjectStats(p, all).high == |Seqs.Positions(HighIn(p.id), all)|
    ensures ProjectStats(p, all).overdue == |Seqs.Positions(OverdueIn(p.id), all)|
  {
    Seqs.FilterFilter(BelongsTo(p.id), IsHighPriority, HighIn(p.id), all);
    Seqs.FilterFilter(BelongsTo(p.id), IsOverdue, OverdueIn(p.id), all);
    Seqs.FilterCountsPositions(HighIn(p.id), all);
    Seqs.FilterCountsPositions(OverdueIn(p.id), all);
  }

  function ProjectName(p: Project): string {
    p.name
  }

  function StatsEntry(all: seq<Task>): Project -> (string, Stats) {
    (p: Project) => (p.name, ProjectStats(p, all))
  }

  /** `project_stats`: the figures keyed by project name, assigned project by project. */
  function StatsByName(projects: seq<Project>, all: seq<Task>): Dict<string, Stats> {
    FromPairs(Seqs.Map(StatsEntry(all), projects))
  }

  lemma StatsEntryKeys(projects: seq<Project>, all: seq<Task>)
    ensures Keys(Seqs.Map(StatsEntry(all), projects)) == Seqs.Map(ProjectName, projects)
  {
  }

  /** One entry per distinct name, in order of first occurrence; a name shared
      by several projects carries the figures of the last of them. */
  lemma StatsByNameLookup(projects: seq<Project>, all: seq<Task>, name: string)
    ensures Keys(StatsByName(projects, all)) == Seqs.Distinct(Seqs.Map(ProjectName, projects))
    ensures var names := Seqs.Map(ProjectName, projects);
      Lookup(StatsByName(projects, all), name)
      == if name in names then Some(ProjectStats(projects[Seqs.LastIndex(names, name)], all)) else None
  {
    var entries := Seqs.Map(StatsEntry(all), projects);
    StatsEntryKeys(projects, all);
    FromPairsKeys(entries);
    if name in Seqs.Map(ProjectName, projects) {
      FromPairsLookup(entries, name);
    } else {
      FromPairsAbsent(entries, name);
    }
  }

  /** Red when something is overdue, else yellow when something is urgent, else green. */
  function StatusMarker(s: Stats): (m: TaskPrompts.Marker)
    ensures m == TaskPrompts.Red <==> s.overdue > 0
    ensures m == TaskPrompts.Yellow <==> s.overdue == 0 && s.high > 0
    ensures m == TaskPrompts.Green <==> s.overdue == 0 && s.high == 0
    ensures m != TaskPrompts.White
  {
    if s.overdue > 0 then TaskPrompts.Red
    else if s.high > 0 then TaskPrompts.Yellow
    else TaskPrompts.Green
  }

  function Severity(m: TaskPrompts.Marker): nat {
    match m
    case Green => 0
    case Yellow => 1
    case Red => 2
    case White => 0
  }

  /** More overdue or more urgent tasks never make a project look healthier. */
  lemma StatusMarkerMonotone(s: Stats, s': Stats)
    requires s.overdue <= s'.overdue && s.high <= s'.high
    ensures Severity(StatusMarker(s)) <= Severity(StatusMarker(s'))
  {
  }

  function HighNote(s: Stats): string {
    if s.high > 0 then " (" + Text.IntToString(s.high) + " high priority)" else ""
  }

  function OverdueNote(s: Stats): string {
    if s.overdue > 0 then " (" + Text.IntToString(s.overdue) + " overdue)" else ""
  }

  /** `- <marker> **name**: n tasks`, then the high-priority and overdue notes. */
  function OverviewLine(name: string, s: Stats): string {
    "- " + TaskPrompts.Glyph(StatusMarker(s)) + " **" + name + "**: " + Text.IntToString(s.total) + " tasks"
    + HighNote(s) + OverdueNote(s)
  }

  /** The line ends with the task count, then the high-priority note exactly
      when some task is urgent, then the overdue note exactly when something is
      overdue.  The overdue note ends the line exactly when something is
      overdue; with nothing overdue, the high-priority note ends it exactly when
      something is urgent. */
  lemma OverviewLineNotes(name: string, s: Stats)
    ensures Text.EndsWith(OverviewLine(name, s),
      Text.IntToString(s.total) + " tasks"
      + (if s.high > 0 then " (" + Text.IntToString(s.high) + " high priority)" else "")
      + (if s.overdue > 0 then " (" + Text.IntToString(s.overdue) + " overdue)" else ""))
    ensures Text.EndsWith(OverviewLine(name, s), " (" + Text.IntToString(s.overdue) + " overdue)") <==> s.overdue > 0
    ensures s.overdue == 0 ==>
      (Text.EndsWith(OverviewLine(name, s), " (" + Text.IntToString(s.high) + " high priority)") <==> s.high > 0)
  {
    var line := OverviewLine(name, s);
    var base := "- " + TaskPrompts.Glyph(StatusMarker(s)) + " **" + name + "**: " + Text.IntToString(s.total) + " tasks";
    assert line == base + HighNote(s) + OverdueNote(s);
    var counts := Text.IntToString(s.total) + " tasks" + HighNote(s) + OverdueNote(s);
    var lead := "- " + TaskPrompts.Glyph(StatusMarker(s)) + " **" + name + "**: ";
    assert line == lead + counts;
    assert line[|line| - |counts|..] == counts;
    var overdue := " (" + Text.IntToString(s.overdue) + " overdue)";
    var high := " (" + Text.IntToString(s.high) + " high priority)";
    if s.overdue > 0 {
      assert line == (base + HighNote(s)) + overdue;
      assert line[|line| - |overdue|..] == overdue;
    } else if s.high > 0 {
      assert line == base + high;
      assert line[|line| - |high|..] == high;
      assert line[|line| - 2] == 'y';
      assert overdue[|overdue| - 2] == 'e';
    } else {
      assert line == base;
      assert line[|line| - 1] == 's';
      assert overdue[|overdue| - 1] == ')' && high[|high| - 1] == ')';
    }
  }

  function OverviewEntry(entry: (string, Stats)): string {
    OverviewLine(entry.0, entry.1)
  }

  function OverviewLines(stats: Dict<string, Stats>): seq<string> {
    Seqs.Map(OverviewEntry, stats)
  }

  /** Each distinct project name has one overview line, at the position of its
      first project, showing the figures of its last project. */
  lemma OverviewLineOfName(projects: seq<Project>, all: seq<Task>, name: string)
    requires name in Seqs.Map(ProjectName, projects)
    ensures var names := Seqs.Map(ProjectName, projects);
      var keys := Seqs.Distinct(names);
      var lines := OverviewLines(StatsByName(projects, all));
      && |lines| == |keys| && name in keys
      && lines[Seqs.FirstIndex(keys, name)] == OverviewLine(name, ProjectStats(projects[Seqs.LastIndex(names, name)], all))
  {
    var names := Seqs.Map(ProjectName, projects);
    var keys := Seqs.Distinct(names);
    var stats := StatsByName(projects, all);
    StatsByNameLookup(projects, all, name);
    var i := Seqs.FirstIndex(keys, name);
    assert Keys(stats)[i] == stats[i].0;
    LookupEntry(stats, i);
  }

  const ReviewHead: string := "# Project Portfolio Review" + "\n\n## Overview"

  const ReviewTail: string :=
      "\n## Review Framework\n"
    + "\n### Health Check\n"
    + "1. Which projects are progressing well?\n"
    + "2. Which projects have stalled or need attention?\n"
    + "3. Are there any projects with too many overdue tasks?\n"
    + "\n### Resource Allocation\n"
    + "1. Which projects deserve more focus this week?\n"
    + "2. Are there projects that should be paused or cancelled?\n"
    + "3. How is my workload distributed across projects?\n"
    + "\n### Strategic Alignment\n"
    + "1. Do these projects align with my current goals?\n"
    + "2. Are there any projects that are no longer relevant?\n"
    + "3. What new projects should I consider starting?\n"
    + "\n### Action Items\n"
    + "1. Which projects need immediate attention?\n"
    + "2. What tasks should be reprioritized across projects?\n"
    + "3. How can I better balance my project portfolio?\n"
    + "\n"
    + "Please help me analyze this project portfolio and suggest improvements to my project management approach."

  const ReviewErrorPrefix: string := "Error generating project review prompt: "

  /** The `project_review` prompt, given the answers of `get_projects()` and
      then `get_tasks()`. */
  function ProjectReview(projectsFetch: Result<seq<Project>>, tasksFetch: Result<seq<Task>>): (r: string)
    ensures projectsFetch.Err? ==> r == ReviewErrorPrefix + projectsFetch.error
    ensures projectsFetch.Ok? && tasksFetch.Err? ==> r == ReviewErrorPrefix + tasksFetch.error
    ensures projectsFetch.Ok? && tasksFetch.Ok? ==> Text.StartsWith(r, ReviewHead)
    ensures (projectsFetch.Err? || tasksFetch.Err?) <==> Text.StartsWith(r, ReviewErrorPrefix)
  {
    match projectsFetch
    case Err(e) => ReviewErrorPrefix + e
    case Ok(projects) =>
      match tasksFetch
      case Err(e) => ReviewErrorPrefix + e
      case Ok(all) =>
        var lines := OverviewLines(StatsByName(projects, all));
        Text.FramedStart(ReviewHead, lines, ReviewTail);
        Text.FirstCharDiffers(Text.Framed(ReviewHead, lines, ReviewTail), ReviewHead, ReviewErrorPrefix);
        Text.Framed(ReviewHead, lines, ReviewTail)
  }

  lemma OverviewLineOneLine(name: string, s: Stats)
    requires Text.NoNewline(name)
    ensures Text.NoNewline(OverviewLine(name, s))
  {
    assert Text.NoNewline(TaskPrompts.Glyph(StatusMarker(s)));
    assert Text.NoNewline(HighNote(s)) && Text.NoNewline(OverdueNote(s));
  }

  lemma OverviewLinesOneLine(stats: Dict<string, Stats>)
    requires forall i :: 0 <= i < |stats| ==> Text.NoNewline(stats[i].0)
    ensures Text.AllNoNewline(OverviewLines(stats))
  {
    var lines := OverviewLines(stats);
    forall i | 0 <= i < |lines|
      ensures Text.NoNewline(lines[i])
    {
      assert lines[i] == OverviewEntry(stats[i]);
      OverviewLineOneLine(stats[i].0, stats[i].1);
    }
  }

  lemma StatsNamesOneLine(projects: seq<Project>, all: seq<Task>)
    requires forall i :: 0 <= i < |projects| ==> Text.NoNewline(projects[i].name)
    ensures var stats := StatsByName(projects, all);
      forall i :: 0 <= i < |stats| ==> Text.NoNewline(stats[i].0)
  {
    var stats := StatsByName(projects, all);
    var names := Seqs.Map(ProjectName, projects);
    StatsByNameLookup(projects, all, "");
    forall i | 0 <= i < |stats|
      ensures Text.NoNewline(stats[i].0)
    {
      assert Keys(stats)[i] == stats[i].0;
      var k :| 0 <= k < |names| && names[k] == stats[i].0;
    }
  }

  /** Between the fixed head and tail there is one overview line per distinct
      project name, and none at all when there are no projects. */
  lemma ProjectReviewLines(projects: seq<Project>, all: seq<Task>)
    requires forall i :: 0 <= i < |projects| ==> Text.NoNewline(projects[i].name)
    ensures var lines := OverviewLines(StatsByName(projects, all));
      && Text.Split(ProjectReview(Ok(projects), Ok(all))) == Text.Split(ReviewHead) + lines + Text.Split(ReviewTail)
      && |lines| == |Seqs.Distinct(Seqs.Map(ProjectName, projects))|
      && (|projects| == 0 ==> lines == [])
  {
    var stats := StatsByName(projects, all);
    StatsNamesOneLine(projects, all);
    OverviewLinesOneLine(stats);
    Text.SplitFramed(ReviewHead, OverviewLines(stats), ReviewTail);
    StatsByNameLookup(projects, all, "");
  }

  // ---------------------------------------------------------------------------
  // project_completion
  // ---------------------------------------------------------------------------

  const CompletionHead: string := "# Project Completion: "

  const CompletionTail: string :=
      "\n\n## Completion Checklist\n"
    + "- [ ] All planned tasks completed\n"
    + "- [ ] Deliverables reviewed and approved\n"
    + "- [ ] Documentation updated\n"
    + "- [ ] Stakeholders notified\n"
    + "- [ ] Resources cleaned up\n"
    + "- [ ] Lessons learned documented\n"
    + "\n## Retrospective Questions\n"
    + "\n### What Went Well?\n"
    + "1. What aspects of this project were successful?\n"
    + "2. What processes or approaches worked effectively?\n"
    + "3. What tools or resources were particularly helpful?\n"
    + "\n### What Could Be Improved?\n"
    + "1. What challenges did we encounter?\n"
    + "2. What would I do differently next time?\n"
    + "3. Were there any missed opportunities?\n"
    + "\n### Lessons Learned\n"
    + "1. What insights can I apply to future projects?\n"
    + "2. What new skills or knowledge did I gain?\n"
    + "3. How can I improve my project planning process?\n"
    + "\n### Next Steps\n"
    + "1. Are there any follow-up tasks or maintenance items?\n"
    + "2. Should this project lead to new initiatives?\n"
    + "3. How should I archive or organize project materials?\n"
    + "\n"
    + "Please help me conduct a thorough review of this completed project and extract valuable lessons for future work."

  /** The `project_completion` prompt.  It reads no backend data: the project
      name is embedded verbatim, and can be read back out. */
  function ProjectCompletion(projectName: string): (r: string)
    ensures Text.Extract(CompletionHead, CompletionTail, r) == Some(projectName)
  {
    Text.FillExtract(CompletionHead, CompletionTail, projectName);
    Text.Fill(CompletionHead, CompletionTail, projectName)
  }
}
