/** The read-only resource views (src/resources/todoist_resources.py).

    Each view is a pure function of the backend's answer: a failed fetch
    becomes an error text and is never propagated. */
module Resources {
  import opened Wrappers
  import opened Todoist
  import Seqs
  import Text

  const NoTasks: string := "No tasks found"
  const NoProjects: string := "No projects found"
  const TasksErrorPrefix: string := "Error fetching tasks: "
  const ProjectsErrorPrefix: string := "Error fetching projects: "

  /** A task's text fields hold no line break, so its line is a single line. */
  predicate OneLineTask(t: Task) {
    Text.NoNewline(t.content) && Text.NoNewline(t.id)
    && (t.due.Some? ==> Text.NoNewline(t.due.value.text))
  }

  predicate OneLineProject(p: Project) {
    Text.NoNewline(p.name) && Text.NoNewline(p.id)
  }

  /** `- content (ID: id, Priority: p)`, followed by ` - Due: s` when the task has a due date. */
  function TaskLine(t: Task): string {
    "- " + t.content + " (ID: " + t.id + ", Priority: " + Text.IntToString(t.priority) + ")"
    + (if t.due.Some? then " - Due: " + t.due.value.text else "")
  }

  /** The due date only ever appends its suffix: the rest of the line is the
      line of the same task without a due date, which ends at the priority. */
  lemma TaskLineDueSuffix(t: Task)
    ensures t.due.Some? ==> TaskLine(t) == TaskLine(t.(due := None)) + " - Due: " + t.due.value.text
    ensures t.due.None? ==> Text.EndsWith(TaskLine(t), ", Priority: " + Text.IntToString(t.priority) + ")")
  {
    var base := "- " + t.content + " (ID: " + t.id + ", Priority: " + Text.IntToString(t.priority) + ")";
    assert TaskLine(t.(due := None)) == base;
    if t.due.None? {
      assert TaskLine(t) == base;
      var suffix := ", Priority: " + Text.IntToString(t.priority) + ")";
      assert base == "- " + t.content + " (ID: " + t.id + suffix;
      assert base[|base| - |suffix|..] == suffix;
    }
  }

  lemma TaskLineOneLine(t: Task)
    requires OneLineTask(t)
    ensures Text.NoNewline(TaskLine(t))
  {
  }

  lemma TaskLinesOneLine(tasks: seq<Task>)
    requires forall i :: 0 <= i < |tasks| ==> OneLineTask(tasks[i])
    ensures Text.AllNoNewline(Seqs.Map(TaskLine, tasks))
  {
    var lines := Seqs.Map(TaskLine, tasks);
    forall i | 0 <= i < |lines|
      ensures Text.NoNewline(lines[i])
    {
      assert lines[i] == TaskLine(tasks[i]);
      TaskLineOneLine(tasks[i]);
    }
  }

  function ProjectLine(p: Project): string {
    "- " + p.name + " (ID: " + p.id + ")"
  }

  lemma ProjectLineOneLine(p: Project)
    requires OneLineProject(p)
    ensures Text.NoNewline(ProjectLine(p))
  {
  }

  lemma ProjectLinesOneLine(projects: seq<Project>)
    requires forall i :: 0 <= i < |projects| ==> OneLineProject(projects[i])
    ensures Text.AllNoNewline(Seqs.Map(ProjectLine, projects))
  {
    var lines := Seqs.Map(ProjectLine, projects);
    forall i | 0 <= i < |lines|
      ensures Text.NoNewline(lines[i])
    {
      assert lines[i] == ProjectLine(projects[i]);
      ProjectLineOneLine(projects[i]);
    }
  }

  /** A header line followed by one line per task, joined by newlines. */
  function Listing(header: string, lines: seq<string>): string {
    header + "\n" + Text.Join(lines)
  }

  /** Splitting a listing recovers its header and every item line, in order. */
  lemma ListingLines(header: string, lines: seq<string>)
    requires |lines| >= 1
    requires Text.NoNewline(header) && Text.AllNoNewline(lines)
    ensures Text.Split(Listing(header, lines)) == [header] + lines
  {
    Text.SplitJoin(lines);
    Text.SplitLine(header);
    Text.SplitAtNewline(header, Text.Join(lines));
  }

  function TasksHeader(n: nat): string {
    "Todoist Tasks (" + Text.IntToString(n) + " total):"
  }

  function ProjectsHeader(n: nat): string {
    "Todoist Projects (" + Text.IntToString(n) + " total):"
  }

  function ProjectTasksHeader(projectId: string, n: nat): string {
    "Tasks for Project " + projectId + " (" + Text.IntToString(n) + " total):"
  }

  lemma HeadersOneLine(projectId: string, n: nat)
    requires Text.NoNewline(projectId)
    ensures Text.NoNewline(TasksHeader(n)) && Text.NoNewline(ProjectsHeader(n))
    ensures Text.NoNewline(ProjectTasksHeader(projectId, n))
  {
  }

  /** The `todoist://tasks` resource, given the answer of `get_tasks()`. */
  function TasksResource(fetch: Result<seq<Task>>): (r: string)
    ensures fetch.Err? <==> Text.StartsWith(r, TasksErrorPrefix)
    ensures fetch.Err? ==> Text.EndsWith(r, fetch.error)
    ensures r == NoTasks <==> fetch == Ok([])
  {
    match fetch
    case Err(e) => TasksErrorPrefix + e
    case Ok(tasks) =>
      if |tasks| == 0 then NoTasks
      else
        var r := Listing(TasksHeader(|tasks|), Seqs.Map(TaskLine, tasks));
        assert r[0] == 'T';
        r
  }

  /** A non-empty task list renders as its count header and then exactly one
      line per task, in input order. */
  lemma TasksResourceLines(tasks: seq<Task>)
    requires |tasks| >= 1
    requires forall i :: 0 <= i < |tasks| ==> OneLineTask(tasks[i])
    ensures Text.Split(TasksResource(Ok(tasks))) == [TasksHeader(|tasks|)] + Seqs.Map(TaskLine, tasks)
  {
    var header, lines := TasksHeader(|tasks|), Seqs.Map(TaskLine, tasks);
    HeadersOneLine("", |tasks|);
    TaskLinesOneLine(tasks);
    ListingLines(header, lines);
  }

  /** The `todoist://projects` resource, given the answer of `get_projects()`. */
  function ProjectsResource(fetch: Result<seq<Project>>): (r: string)
    ensures fetch.Err? <==> Text.StartsWith(r, ProjectsErrorPrefix)
    ensures fetch.Err? ==> Text.EndsWith(r, fetch.error)
    ensures r == NoProjects <==> fetch == Ok([])
  {
    match fetch
    case Err(e) => ProjectsErrorPrefix + e
    case Ok(projects) =>
      if |projects| == 0 then NoProjects
      else
        var r := Listing(ProjectsHeader(|projects|), Seqs.Map(ProjectLine, projects));
        assert r[0] == 'T';
        r
  }

  /** A non-empty project list renders as its count header and then exactly
      one line per project, in input order. */
  lemma ProjectsResourceLines(projects: seq<Project>)
    requires |projects| >= 1
    requires forall i :: 0 <= i < |projects| ==> OneLineProject(projects[i])
    ensures Text.Split(ProjectsResource(Ok(projects))) == [ProjectsHeader(|projects|)] + Seqs.Map(ProjectLine, projects)
  {
    HeadersOneLine("", |projects|);
    ProjectLinesOneLine(projects);
    ListingLines(ProjectsHeader(|projects|), Seqs.Map(ProjectLine, projects));
  }

  function ProjectTasksErrorPrefix(projectId: string): string {
    "Error fetching tasks for project " + projectId + ": "
  }

  function NoProjectTasks(projectId: string): string {
    "No tasks found for project " + projectId
  }

  /** The `todoist://project/{project_id}/tasks` resource, given the answer of
      `get_tasks(project_id=project_id)`. */
  function ProjectTasksResource(projectId: string, fetch: Result<seq<Task>>): (r: string)
    ensures fetch.Err? <==> Text.StartsWith(r, ProjectTasksErrorPrefix(projectId))
    ensures fetch.Err? ==> Text.EndsWith(r, fetch.error)
    ensures r == NoProjectTasks(projectId) <==> fetch == Ok([])
  {
    var prefix := ProjectTasksErrorPrefix(projectId);
    assert prefix[0] == 'E' && NoProjectTasks(projectId)[0] == 'N';
    match fetch
    case Err(e) => prefix + e
    case Ok(tasks) =>
      if |tasks| == 0 then NoProjectTasks(projectId)
      else
        var r := Listing(ProjectTasksHeader(projectId, |tasks|), Seqs.Map(TaskLine, tasks));
        assert r[0] == 'T';
        r
  }

  /** A non-empty answer renders as a header naming the project and the count,
      then exactly one line per task, in input order. */
  lemma ProjectTasksResourceLines(projectId: string, tasks: seq<Task>)
    requires |tasks| >= 1 && Text.NoNewline(projectId)
    requires forall i :: 0 <= i < |tasks| ==> OneLineTask(tasks[i])
    ensures Text.Split(ProjectTasksResource(projectId, Ok(tasks)))
         == [ProjectTasksHeader(projectId, |tasks|)] + Seqs.Map(TaskLine, tasks)
  {
    HeadersOneLine(projectId, |tasks|);
    TaskLinesOneLine(tasks);
    ListingLines(ProjectTasksHeader(projectId, |tasks|), Seqs.Map(TaskLine, tasks));
  }
}
