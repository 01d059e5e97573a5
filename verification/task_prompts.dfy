/** The task prompts (src/prompts/task_prompts.py): daily planning, weekly
    review and task breakdown.

    A prompt is a pure function of the backend's answers.  A failed fetch
    becomes an error text; the prompt never fails. */
module TaskPrompts {
  import opened Wrappers
  import opened Todoist
  import opened Assoc
  import Seqs
  import Text

  // ---------------------------------------------------------------------------
  // Priority markers and task lines
  // ---------------------------------------------------------------------------

  /** The coloured circles a prompt puts in front of a task or project. */
  datatype Marker = Red | Yellow | Green | White

  function Glyph(m: Marker): string {
    match m
    case Red => "\U{1F534}"
    case Yellow => "\U{1F7E1}"
    case Green => "\U{1F7E2}"
    case White => "\U{26AA}"
  }

  /** Different markers are drawn differently. */
  lemma GlyphInjective(m: Marker, m': Marker)
    ensures Glyph(m) == Glyph(m') <==> m == m'
  {
    if m != m' {
      assert Glyph(m)[0] != Glyph(m')[0];
    }
  }

  /** Todoist priority 4 is the most urgent; anything outside 2..4 gets the neutral marker. */
  function PriorityMarker(priority: int): (m: Marker)
    ensures m == Red <==> priority == 4
    ensures m == Yellow <==> priority == 3
    ensures m == Green <==> priority == 2
    ensures m == White <==> !(2 <= priority <= 4)
  {
    if priority == 4 then Red
    else if priority == 3 then Yellow
    else if priority == 2 then Green
    else White
  }

  /** The priority a marker stands for, when it stands for exactly one. */
  function MarkerPriority(m: Marker): Option<int> {
    match m
    case Red => Some(4)
    case Yellow => Some(3)
    case Green => Some(2)
    case White => None
  }

  /** The marker loses nothing for priorities 2 to 4, and tells every other
      priority apart from those three. */
  lemma PriorityMarkerRoundTrip(priority: int)
    ensures MarkerPriority(PriorityMarker(priority)) == if 2 <= priority <= 4 then Some(priority) else None
  {
  }

  /** ` (Due: s)` when the task has a due date, nothing otherwise. */
  function DueInfo(t: Task): string {
    if t.due.Some? then " (Due: " + t.due.value.text + ")" else ""
  }

  /** `- <marker> content (Due: s)`, the task line of the planning prompts. */
  function PlanLine(t: Task): string {
    "- " + Glyph(PriorityMarker(t.priority)) + " " + t.content + DueInfo(t)
  }

  /** The due date only appends ` (Due: s)` to the line of the same task
      without one, and that line gives back the task's content verbatim after
      the marker of its priority. */
  lemma PlanLineParts(t: Task)
    ensures t.due.Some? ==> PlanLine(t) == PlanLine(t.(due := None)) + " (Due: " + t.due.value.text + ")"
    ensures Text.Extract("- " + Glyph(PriorityMarker(t.priority)) + " ", "", PlanLine(t.(due := None))) == Some(t.content)
  {
    var head := "- " + Glyph(PriorityMarker(t.priority)) + " ";
    assert PlanLine(t.(due := None)) == Text.Fill(head, "", t.content);
    Text.FillExtract(head, "", t.content);
  }

  /** The text fields a plan line shows hold no line break. */
  predicate OneLinePlanTask(t: Task) {
    Text.NoNewline(t.content) && (t.due.Some? ==> Text.NoNewline(t.due.value.text))
  }

  lemma PlanLineOneLine(t: Task)
    requires OneLinePlanTask(t)
    ensures Text.NoNewline(PlanLine(t))
  {
    assert Text.NoNewline(Glyph(PriorityMarker(t.priority)));
  }

  lemma PlanLinesOneLine(tasks: seq<Task>)
    requires forall i :: 0 <= i < |tasks| ==> OneLinePlanTask(tasks[i])
    ensures Text.AllNoNewline(Seqs.Map(PlanLine, tasks))
  {
    var lines := Seqs.Map(PlanLine, tasks);
    forall i | 0 <= i < |lines|
      ensures Text.NoNewline(lines[i])
    {
      assert lines[i] == PlanLine(tasks[i]);
      PlanLineOneLine(tasks[i]);
    }
  }

  // ---------------------------------------------------------------------------
  // Grouping tasks by project name
  // ---------------------------------------------------------------------------

  const Inbox: string := "Inbox"

  function ProjectEntry(p: Project): (string, string) {
    (p.id, p.name)
  }

  function ProjectId(p: Project): string {
    p.id
  }

  /** `{p['id']: p['name'] for p in projects}` */
  function ProjectNames(projects: seq<Project>): Dict<string, string> {
    FromPairs(Seqs.Map(ProjectEntry, projects))
  }

  /** `project_map.get(task.get('project_id'), 'Inbox')` */
  function GroupName(names: Dict<string, string>, t: Task): string {
    match t.projectId
    case None => Inbox
    case Some(id) => Lookup(names, id).GetOr(Inbox)
  }

  /** A task's group is the name of the project with its id (the last such
      project, should ids repeat), or the inbox when no project has that id. */
  lemma GroupNameOfProject(projects: seq<Project>, t: Task)
    ensures var ids := Seqs.Map(ProjectId, projects);
      && (t.projectId.None? || t.projectId.value !in ids ==> GroupName(ProjectNames(projects), t) == Inbox)
      && (t.projectId.Some? && t.projectId.value in ids ==>
            GroupName(ProjectNames(projects), t) == projects[Seqs.LastIndex(ids, t.projectId.value)].name)
  {
    var ids := Seqs.Map(ProjectId, projects);
    var entries := Seqs.Map(ProjectEntry, projects);
    assert Keys(entries) == ids;
    if t.projectId.Some? {
      var id := t.projectId.value;
      if id in ids {
        FromPairsLookup(entries, id);
      } else {
        FromPairsAbsent(entries, id);
      }
    }
  }

  function GroupOf(names: Dict<string, string>): Task -> string {
    t => GroupName(names, t)
  }

  function InGroup(names: Dict<string, string>, name: string): Task -> bool {
    t => GroupName(names, t) == name
  }

  /** `tasks_by_project`: each task in turn is appended to the list under its
      group's name, a new name starting an empty list first. */
  function GroupTasks(names: Dict<string, string>, tasks: seq<Task>): Dict<string, seq<Task>> {
    if |tasks| == 0 then []
    else
      var groups := GroupTasks(names, tasks[..|tasks| - 1]);
      var t := tasks[|tasks| - 1];
      var name := GroupName(names, t);
      Put(groups, name, Lookup(groups, name).GetOr([]) + [t])
  }

  /** The groups appear once each, in the order their names first occur among the tasks. */
  lemma {:induction false} GroupKeys(names: Dict<string, string>, tasks: seq<Task>)
    ensures Keys(GroupTasks(names, tasks)) == Seqs.Distinct(Seqs.Map(GroupOf(names), tasks))
    decreases |tasks|
  {
    if |tasks| > 0 {
      var init := tasks[..|tasks| - 1];
      var t := tasks[|tasks| - 1];
      var groups := GroupTasks(names, init);
      var name := GroupName(names, t);
      GroupKeys(names, init);
      PutKeys(groups, name, Lookup(groups, name).GetOr([]) + [t]);
      var ns := Seqs.Map(GroupOf(names), tasks);
      assert ns[..|tasks| - 1] == Seqs.Map(GroupOf(names), init);
      assert ns[|tasks| - 1] == name;
    }
  }

  /** A group holds exactly the tasks with its name, in input order; a name no
      task has is no group. */
  lemma {:induction false} GroupMembers(names: Dict<string, string>, tasks: seq<Task>, name: string)
    ensures var members := Seqs.Filter(InGroup(names, name), tasks);
      Lookup(GroupTasks(names, tasks), name) == if members == [] then None else Some(members)
    decreases |tasks|
  {
    if |tasks| > 0 {
      var init := tasks[..|tasks| - 1];
      var t := tasks[|tasks| - 1];
      var groups := GroupTasks(names, init);
      var key := GroupName(names, t);
      var v := Lookup(groups, key).GetOr([]) + [t];
      GroupMembers(names, init, name);
      assert tasks == init + [t];
      if key == name {
        assert Seqs.Filter(InGroup(names, name), tasks) == Seqs.Filter(InGroup(names, name), init) + [t];
      } else {
        PutOther(groups, key, v, name);
        assert Seqs.Filter(InGroup(names, name), tasks) == Seqs.Filter(InGroup(names, name), init);
      }
    }
  }

  /** Every task lies in exactly one group: the one with its own group name. */
  lemma TaskInOneGroup(names: Dict<string, string>, tasks: seq<Task>, i: nat, name: string)
    requires i < |tasks|
    ensures tasks[i] in Lookup(GroupTasks(names, tasks), name).GetOr([]) <==> name == GroupName(names, tasks[i])
  {
    GroupMembers(names, tasks, name);
    var members := Seqs.Filter(InGroup(names, name), tasks);
    if name == GroupName(names, tasks[i]) {
      assert InGroup(names, name)(tasks[i]);
      assert tasks[i] in members;
    }
  }

  /** The groups together hold every task once. */
  lemma {:induction false} GroupsHoldEveryTask(names: Dict<string, string>, tasks: seq<Task>)
    ensures TotalLength(GroupTasks(names, tasks)) == |tasks|
    decreases |tasks|
  {
    if |tasks| > 0 {
      var init := tasks[..|tasks| - 1];
      var t := tasks[|tasks| - 1];
      var groups := GroupTasks(names, init);
      var name := GroupName(names, t);
      GroupsHoldEveryTask(names, init);
      PutTotalLength(groups, name, Lookup(groups, name).GetOr([]) + [t]);
    }
  }

  // ---------------------------------------------------------------------------
  // daily_planning
  // ---------------------------------------------------------------------------

  /** One group of the overview: a blank line, the `### name` heading, then a
      line per task. */
  function GroupSection(name: string, tasks: seq<Task>): seq<string> {
    ["", "### " + name] + Seqs.Map(PlanLine, tasks)
  }

  function GroupLines(groups: Dict<string, seq<Task>>): seq<string> {
    if |groups| == 0 then [] else GroupSection(groups[0].0, groups[0].1) + GroupLines(groups[1..])
  }

  /** Two lines per group and one per task in it. */
  lemma {:induction false} GroupLinesCount(groups: Dict<string, seq<Task>>)
    ensures |GroupLines(groups)| == 2 * |groups| + TotalLength(groups)
    decreases |groups|
  {
    if |groups| > 0 {
      GroupLinesCount(groups[1..]);
    }
  }

  predicate OneLineGroups(groups: Dict<string, seq<Task>>) {
    forall i :: 0 <= i < |groups| ==>
      Text.NoNewline(groups[i].0) && forall j :: 0 <= j < |groups[i].1| ==> OneLinePlanTask(groups[i].1[j])
  }

  lemma {:induction false} GroupLinesOneLine(groups: Dict<string, seq<Task>>)
    requires OneLineGroups(groups)
    ensures Text.AllNoNewline(GroupLines(groups))
    decreases |groups|
  {
    if |groups| > 0 {
      GroupLinesOneLine(groups[1..]);
      PlanLinesOneLine(groups[0].1);
      var head := ["", "### " + groups[0].0];
      assert Text.NoNewline(head[1]);
      assert GroupLines(groups) == head + Seqs.Map(PlanLine, groups[0].1) + GroupLines(groups[1..]);
    }
  }

  /** A group's name is the group name of one of the tasks, and it holds the
      tasks with that name. */
  lemma GroupEntry(names: Dict<string, string>, tasks: seq<Task>, i: nat)
    requires i < |GroupTasks(names, tasks)|
    ensures var g := GroupTasks(names, tasks)[i];
      && g.1 == Seqs.Filter(InGroup(names, g.0), tasks)
      && exists k :: 0 <= k < |tasks| && GroupName(names, tasks[k]) == g.0
  {
    var groups := GroupTasks(names, tasks);
    var name := groups[i].0;
    var ns := Seqs.Map(GroupOf(names), tasks);
    GroupKeys(names, tasks);
    assert Keys(groups)[i] == name;
    var k :| 0 <= k < |ns| && ns[k] == name;
    assert GroupName(names, tasks[k]) == name;
    LookupEntry(groups, i);
    GroupMembers(names, tasks, name);
  }

  lemma GroupNameOneLine(projects: seq<Project>, t: Task)
    requires forall i :: 0 <= i < |projects| ==> Text.NoNewline(projects[i].name)
    ensures Text.NoNewline(GroupName(ProjectNames(projects), t))
  {
    GroupNameOfProject(projects, t);
    assert Text.NoNewline(Inbox);
  }

  /** Group names are project names or the inbox, and groups hold input tasks,
      so newline-free names and tasks give newline-free groups. */
  lemma GroupTasksOneLine(projects: seq<Project>, tasks: seq<Task>)
    requires forall i :: 0 <= i < |projects| ==> Text.NoNewline(projects[i].name)
    requires forall i :: 0 <= i < |tasks| ==> OneLinePlanTask(tasks[i])
    ensures OneLineGroups(GroupTasks(ProjectNames(projects), tasks))
  {
    var names := ProjectNames(projects);
    var groups := GroupTasks(names, tasks);
    forall i | 0 <= i < |groups|
      ensures Text.NoNewline(groups[i].0)
      ensures forall j :: 0 <= j < |groups[i].1| ==> OneLinePlanTask(groups[i].1[j])
    {
      GroupEntry(names, tasks, i);
      var k :| 0 <= k < |tasks| && GroupName(names, tasks[k]) == groups[i].0;
      GroupNameOneLine(projects, tasks[k]);
    }
  }

  const DailyHead: string := "# Daily Planning Session" + "\n\n## Current Tasks Overview"

  const DailyTail: string :=
      "\n## Planning Questions\n"
    + "1. What are your top 3 priorities for today?\n"
    + "2. Which tasks can be completed quickly (< 15 minutes)?\n"
    + "3. Are there any tasks that should be rescheduled or delegated?\n"
    + "4. What new tasks need to be added for today?\n"
    + "\n"
    + "Please help me prioritize and organize these tasks for maximum productivity."

  const DailyErrorPrefix: string := "Error generating daily planning prompt: "

  /** The `daily_planning` prompt, given the answers of `get_tasks()` and then
      `get_projects()`. */
  function DailyPlanning(tasksFetch: Result<seq<Task>>, projectsFetch: Result<seq<Project>>): (r: string)
    ensures tasksFetch.Err? ==> r == DailyErrorPrefix + tasksFetch.error
    ensures tasksFetch.Ok? && projectsFetch.Err? ==> r == DailyErrorPrefix + projectsFetch.error
    ensures tasksFetch.Ok? && projectsFetch.Ok? ==> Text.StartsWith(r, DailyHead)
    ensures (tasksFetch.Err? || projectsFetch.Err?) <==> Text.StartsWith(r, DailyErrorPrefix)
  {
    match tasksFetch
    case Err(e) => DailyErrorPrefix + e
    case Ok(tasks) =>
      match projectsFetch
      case Err(e) => DailyErrorPrefix + e
      case Ok(projects) =>
        var lines := GroupLines(GroupTasks(ProjectNames(projects), tasks));
        Text.FramedStart(DailyHead, lines, DailyTail);
        Text.FirstCharDiffers(Text.Framed(DailyHead, lines, DailyTail), DailyHead, DailyErrorPrefix);
        Text.Framed(DailyHead, lines, DailyTail)
  }

  /** Between the fixed head and tail, the prompt has exactly the group lines:
      per group, in order of first occurrence, a blank line, its heading and
      one line per task, so two lines per group and one per task. */
  lemma DailyPlanningLines(tasks: seq<Task>, projects: seq<Project>)
    requires forall i :: 0 <= i < |projects| ==> Text.NoNewline(projects[i].name)
    requires forall i :: 0 <= i < |tasks| ==> OneLinePlanTask(tasks[i])
    ensures var names := ProjectNames(projects);
      var lines := GroupLines(GroupTasks(names, tasks));
      && Text.Split(DailyPlanning(Ok(tasks), Ok(projects))) == Text.Split(DailyHead) + lines + Text.Split(DailyTail)
      && |lines| == 2 * |Seqs.Distinct(Seqs.Map(GroupOf(names), tasks))| + |tasks|
  {
    var names := ProjectNames(projects);
    var groups := GroupTasks(names, tasks);
    var lines := GroupLines(groups);
    GroupTasksOneLine(projects, tasks);
    GroupLinesOneLine(groups);
    Text.SplitFramed(DailyHead, lines, DailyTail);
    GroupLinesCount(groups);
    GroupsHoldEveryTask(names, tasks);
    GroupKeys(names, tasks);
  }

  // ---------------------------------------------------------------------------
  // weekly_review
  // ---------------------------------------------------------------------------

  const WeeklyErrorPrefix: string := "Error generating weekly review prompt: "

  /** The status block: the two counts on lines of their own. */
  function WeeklyStatus(activeTasks: nat, activeProjects: nat): seq<string> {
    ["# Weekly Review", "", "## Current Status",
     "- **Active Tasks**: " + Text.IntToString(activeTasks),
     "- **Active Projects**: " + Text.IntToString(activeProjects)]
  }

  const WeeklyQuestions: string :=
      "\n## Review Questions\n"
    + "\n### Completion Analysis\n"
    + "1. What tasks did I complete this week?\n"
    + "2. What tasks are still pending and why?\n"
    + "3. Which projects made the most progress?\n"
    + "\n### Process Improvement\n"
    + "1. What patterns do I notice in my task completion?\n"
    + "2. Are there tasks that consistently get postponed?\n"
    + "3. How can I better estimate task duration?\n"
    + "\n### Planning Ahead\n"
    + "1. What are the priorities for next week?\n"
    + "2. Are there any upcoming deadlines I need to prepare for?\n"
    + "3. Should any projects be restructured or broken down differently?\n"
    + "\n## Current Task Summary"

  predicate IsHigh(t: Task) { t.priority == 4 }
  predicate IsMedium(t: Task) { t.priority == 3 }
  predicate IsLow(t: Task) { t.priority <= 2 }

  const SectionLimit: nat := 5

  function ContentLine(t: Task): string {
    "- " + t.content
  }

  /** A bucket's section: nothing for an empty bucket, otherwise a blank line,
      a heading with the bucket's size, and the first tasks of the bucket. */
  function BucketSection(title: string, bucket: seq<Task>): seq<string> {
    if |bucket| == 0 then []
    else
      ["", "### " + title + " (" + Text.IntToString(|bucket|) + " tasks)"]
      + Seqs.Map(ContentLine, Seqs.Take(bucket, SectionLimit))
  }

  function OtherLine(remaining: nat): string {
    "### Other Tasks: " + Text.IntToString(remaining) + " remaining"
  }

  /** The summary after the questions: the high and medium sections and the
      count of the remaining tasks. */
  function SummaryLines(tasks: seq<Task>): seq<string> {
    BucketSection("High Priority", Seqs.Filter(IsHigh, tasks))
    + BucketSection("Medium Priority", Seqs.Filter(IsMedium, tasks))
    + ["", OtherLine(|Seqs.Filter(IsLow, tasks)|)]
  }

  /** The `weekly_review` prompt, given the answers of `get_tasks()` and then
      `get_projects()`. */
  function WeeklyReview(tasksFetch: Result<seq<Task>>, projectsFetch: Result<seq<Project>>): (r: string)
    ensures tasksFetch.Err? ==> r == WeeklyErrorPrefix + tasksFetch.error
    ensures tasksFetch.Ok? && projectsFetch.Err? ==> r == WeeklyErrorPrefix + projectsFetch.error
    ensures (tasksFetch.Err? || projectsFetch.Err?) <==> Text.StartsWith(r, WeeklyErrorPrefix)
  {
    match tasksFetch
    case Err(e) => WeeklyErrorPrefix + e
    case Ok(tasks) =>
      match projectsFetch
      case Err(e) => WeeklyErrorPrefix + e
      case Ok(projects) =>
        var status := WeeklyStatus(|tasks|, |projects|);
        var head := Text.Unlines(status) + WeeklyQuestions;
        var summary := SummaryLines(tasks);
        Text.UnlinesFirst(status);
        assert head[0] == status[0][0] == '#';
        Text.FramedStart(head, summary, "");
        Text.FirstCharDiffers(Text.Framed(head, summary, ""), head, WeeklyErrorPrefix);
        Text.Framed(head, summary, "")
  }

  /** A non-empty bucket gets a heading carrying its size and then the first
      `min(size, 5)` of its tasks, in order; an empty bucket gets no line at all. */
  lemma BucketSectionShape(title: string, bucket: seq<Task>)
    ensures |bucket| == 0 <==> BucketSection(title, bucket) == []
    ensures |bucket| > 0 ==>
      var section := BucketSection(title, bucket);
      var listed := if |bucket| <= SectionLimit then |bucket| else SectionLimit;
      && |section| == 2 + listed
      && section[1] == "### " + title + " (" + Text.IntToString(|bucket|) + " tasks)"
      && forall i :: 0 <= i < listed ==> section[2 + i] == "- " + bucket[i].content
  {
  }

  /** The bucket sizes count the tasks of priority 4, of priority 3 and of
      priority at most 2; when every priority lies in Todoist's range 1..4, the
      three buckets share out all tasks. */
  lemma WeeklyBucketCounts(tasks: seq<Task>)
    ensures |Seqs.Filter(IsHigh, tasks)| == |Seqs.Positions(IsHigh, tasks)|
    ensures |Seqs.Filter(IsMedium, tasks)| == |Seqs.Positions(IsMedium, tasks)|
    ensures |Seqs.Filter(IsLow, tasks)| == |Seqs.Positions(IsLow, tasks)|
    ensures (forall i :: 0 <= i < |tasks| ==> 1 <= tasks[i].priority <= 4) ==>
      |Seqs.Filter(IsHigh, tasks)| + |Seqs.Filter(IsMedium, tasks)| + |Seqs.Filter(IsLow, tasks)| == |tasks|
  {
    Seqs.FilterCountsPositions(IsHigh, tasks);
    Seqs.FilterCountsPositions(IsMedium, tasks);
    Seqs.FilterCountsPositions(IsLow, tasks);
    if forall i :: 0 <= i < |tasks| ==> 1 <= tasks[i].priority <= 4 {
      Seqs.FilterPartition3(IsHigh, IsMedium, IsLow, tasks);
    }
  }

  lemma BucketSectionOneLine(title: string, bucket: seq<Task>)
    requires Text.NoNewline(title)
    requires forall i :: 0 <= i < |bucket| ==> Text.NoNewline(bucket[i].content)
    ensures Text.AllNoNewline(BucketSection(title, bucket))
  {
    var section := BucketSection(title, bucket);
    if |bucket| > 0 {
      forall i | 0 <= i < |section|
        ensures Text.NoNewline(section[i])
      {
        if i >= 2 {
          assert section[i] == "- " + bucket[i - 2].content;
        }
      }
    }
  }

  lemma BucketOneLine(p: Task -> bool, tasks: seq<Task>)
    requires forall i :: 0 <= i < |tasks| ==> Text.NoNewline(tasks[i].content)
    ensures var bucket := Seqs.Filter(p, tasks);
      forall i :: 0 <= i < |bucket| ==> Text.NoNewline(bucket[i].content)
  {
    var bucket := Seqs.Filter(p, tasks);
    forall i | 0 <= i < |bucket|
      ensures Text.NoNewline(bucket[i].content)
    {
      var j :| 0 <= j < |tasks| && tasks[j] == bucket[i];
    }
  }

  lemma OtherLineOneLine(remaining: nat)
    ensures Text.NoNewline(OtherLine(remaining))
  {
  }

  lemma SummaryOneLine(tasks: seq<Task>)
    requires forall i :: 0 <= i < |tasks| ==> Text.NoNewline(tasks[i].content)
    ensures Text.AllNoNewline(SummaryLines(tasks))
  {
    var high := BucketSection("High Priority", Seqs.Filter(IsHigh, tasks));
    var medium := BucketSection("Medium Priority", Seqs.Filter(IsMedium, tasks));
    BucketOneLine(IsHigh, tasks);
    BucketOneLine(IsMedium, tasks);
    BucketSectionOneLine("High Priority", Seqs.Filter(IsHigh, tasks));
    BucketSectionOneLine("Medium Priority", Seqs.Filter(IsMedium, tasks));
    var other := ["", OtherLine(|Seqs.Filter(IsLow, tasks)|)];
    OtherLineOneLine(|Seqs.Filter(IsLow, tasks)|);
    assert Text.AllNoNewline(other);
    Text.AllNoNewlineConcat(high, medium);
    Text.AllNoNewlineConcat(high + medium, other);
  }

  lemma StatusOneLine(activeTasks: nat, activeProjects: nat)
    ensures Text.AllNoNewline(WeeklyStatus(activeTasks, activeProjects))
  {
  }

  /** After the fixed status block and questions come exactly the summary
      lines, ending with a newline. */
  lemma WeeklyReviewLines(tasks: seq<Task>, projects: seq<Project>)
    requires forall i :: 0 <= i < |tasks| ==> Text.NoNewline(tasks[i].content)
    ensures Text.Split(WeeklyReview(Ok(tasks), Ok(projects)))
         == WeeklyStatus(|tasks|, |projects|) + Text.Split(WeeklyQuestions) + SummaryLines(tasks) + [""]
  {
    var status := WeeklyStatus(|tasks|, |projects|);
    var summary := SummaryLines(tasks);
    SummaryOneLine(tasks);
    StatusOneLine(|tasks|, |projects|);
    var head := Text.Unlines(status) + WeeklyQuestions;
    Text.SplitFramed(head, summary, "");
    Text.SplitUnlines(status, WeeklyQuestions);
  }

  // ---------------------------------------------------------------------------
  // task_breakdown
  // ---------------------------------------------------------------------------

  const BreakdownHead: string := "# Task Breakdown Analysis\n\n## Original Task\n"

  const BreakdownTail: string :=
      "\n\n## Breakdown Framework\n"
    + "Please help me break down this task into smaller, actionable steps:\n"
    + "\n"
    + "1. **Identify Components**: What are the main parts of this task?\n"
    + "2. **Sequence Steps**: What order should these be completed in?\n"
    + "3. **Estimate Time**: How long might each step take?\n"
    + "4. **Identify Dependencies**: What needs to be done before other steps?\n"
    + "5. **Define Success**: What does completion look like for each step?\n"
    + "\n"
    + "## Output Format\n"
    + "Please provide:\n"
    + "- A list of 3-7 concrete, actionable subtasks\n"
    + "- Time estimates for each subtask\n"
    + "- Any dependencies between subtasks\n"
    + "- Priority level for each subtask\n"
    + "\n"
    + "This breakdown will help me create individual tasks in Todoist for better tracking and completion."

  /** The `task_breakdown` prompt.  It reads no backend data: the description is
      embedded verbatim between fixed texts, and can be read back out. */
  function TaskBreakdown(description: string): (r: string)
    ensures Text.Extract(BreakdownHead, BreakdownTail, r) == Some(description)
  {
    Text.FillExtract(BreakdownHead, BreakdownTail, description);
    Text.Fill(BreakdownHead, BreakdownTail, description)
  }
}
