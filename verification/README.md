# Todoist MCP server: a Dafny model of its core

This project models the core of the todoist-mcp-server. The server exposes a
Todoist account to a Model Context Protocol client through three kinds of
entries:

- **the API client** (`TodoistClient`). It shapes the HTTP request of each
  Todoist REST v2 operation: the verb, the URL under
  `https://api.todoist.com/rest/v2`, the bearer-token headers, the query
  parameters and the JSON body.
- **the resources** (`Resources`). They are read-only text views of the task
  list, the project list and one project's tasks.
- **the prompts** (`TaskPrompts`, `ProjectPrompts`). These are Markdown
  templates, some of them filled in from the account's tasks and projects:
  - daily planning, with tasks grouped by project;
  - weekly review, with priority buckets;
  - task breakdown;
  - project planning, new or existing;
  - project portfolio review, with per-project statistics and status markers;
  - project completion.

How the model is built:

- Every backend call is an input of type `Result`. An `Err` stands for any
  exception the call raises: an HTTP status error, a network failure or a
  decoding failure. Each prompt and resource turns that into its own error
  text, the way the source's `try`/`except` does.
- The per-project task fetch of project planning is a function parameter.
  Only the branch for an existing project consults it.
- A Python `dict` is an association list (module `Assoc`) with Python's
  semantics:
  - a store to a new key appends it;
  - a store to an existing key replaces the value in place;
  - a comprehension keeps the last value for a repeated key.
- The status markers are the actual emoji code points.
- The text of the static templates is kept as constants.
- Properties about the shape of the output are stated through `Text.Split`, a
  model of Python's `str.split("\n")`. An example: one line per task, in
  input order, after the header.

Modules, one per file:

- `Wrappers`: Option and Result.
- `Seqs`: map, filter, take, first-occurrence de-duplication and index lemmas.
- `Assoc`: dict semantics.
- `Text`: integer rendering, ASCII lower-casing, splitting and joining lines,
  and a one-slot template with its extractor.
- `Todoist`: the task and project records.
- `TodoistClient`, `Resources`, `TaskPrompts` and `ProjectPrompts`: the core
  itself.

## Model

| member | source | states |
|---|---|---|
| TodoistClient.NewClient | src/todoist_client.py:15-20 | construction succeeds exactly when the argument or the environment token is truthy; the argument wins over the environment; the stored token is never empty; otherwise the fixed "token is required" error |
| TodoistClient.HeadersCarryToken | src/todoist_client.py:22-28 | the headers have exactly the keys Authorization and Content-Type; the bearer credential reads back as the client's own token; the content type is JSON |
| TodoistClient.EndpointRoundTrip | src/todoist_client.py:75-83 | every endpoint URL lies under the REST root and parses back to the same endpoint, so a close request's task id is recovered verbatim |
| TodoistClient.TasksParams | src/todoist_client.py:30-34 | the query holds exactly `project_id` with the given id when the id is truthy, and nothing otherwise |
| TodoistClient.TaskBodyFields | src/todoist_client.py:45-64 | content and priority are always present (priority defaults to 1); project_id, labels and due_string are present exactly when the argument is truthy, and carry its value |
| TodoistClient.TaskBodyKeys | src/todoist_client.py:54-64 | the body's keys are content, priority, then the optional keys that are present, in the source's order |
| TodoistClient.ProjectBodyFields | src/todoist_client.py:95-99 | the body always carries the name; it carries color exactly when the color is truthy; it has no other key |
| TodoistClient.GetTasks | src/todoist_client.py:30-43 | an authorized GET to the tasks endpoint with the project filter as the only query and no body |
| TodoistClient.CreateTask | src/todoist_client.py:45-73 | an authorized POST to the tasks endpoint whose JSON body is the task body and which has no query |
| TodoistClient.CompleteTask | src/todoist_client.py:75-81 | an authorized POST with no body to the close endpoint of exactly the given task id |
| TodoistClient.CompleteTaskOutcome | src/todoist_client.py:82-83 | the result is True exactly when the response succeeded; a failed response surfaces its error unchanged |
| TodoistClient.GetProjects | src/todoist_client.py:85-93 | an authorized GET to the projects endpoint with no query and no body |
| TodoistClient.CreateProject | src/todoist_client.py:95-108 | an authorized POST to the projects endpoint whose JSON body is the project body |
| Resources.TaskLineDueSuffix | src/resources/todoist_resources.py:21-23 | a due date only appends " - Due: " and its text to the line of the same task without a due date; with no due date the line ends at the priority |
| Resources.ListingLines | src/resources/todoist_resources.py:26 | splitting a header joined to its item lines gives back the header and every item line, in order |
| Resources.TasksResource | src/resources/todoist_resources.py:11-28 | the text is an error exactly when the fetch failed, and it then ends with the failure's message; "No tasks found" exactly for an empty list |
| Resources.TasksResourceLines | src/resources/todoist_resources.py:19-26 | a non-empty list renders as the count header, then exactly one line per task in input order |
| Resources.ProjectsResource | src/resources/todoist_resources.py:30-41 | an error exactly when the fetch failed, ending with its message; "No projects found" exactly for an empty list |
| Resources.ProjectsResourceLines | src/resources/todoist_resources.py:34-39 | a non-empty list renders as the count header, then exactly one line per project in input order |
| Resources.ProjectTasksResource | src/resources/todoist_resources.py:43-60 | an error naming the project exactly when the fetch failed, ending with its message; the "no tasks for project" text exactly for an empty list |
| Resources.ProjectTasksResourceLines | src/resources/todoist_resources.py:51-58 | a non-empty list renders as a header naming the project and the count, then one line per task in order |
| TaskPrompts.PriorityMarker | src/prompts/task_prompts.py:38 | red exactly for priority 4, yellow exactly for 3, green exactly for 2, white for every other value |
| TaskPrompts.PriorityMarkerRoundTrip | src/prompts/task_prompts.py:38 | the marker identifies the priority when the priority is 2 to 4; every other priority is indistinguishable |
| TaskPrompts.GlyphInjective | src/prompts/task_prompts.py:38 | distinct markers render as distinct emoji |
| TaskPrompts.PlanLineParts | src/prompts/task_prompts.py:38-40 | a due date only appends " (Due: …)" with its text to the line the same task has without one; that line gives back the task's content verbatim after the marker of its priority |
| TaskPrompts.GroupNameOfProject | src/prompts/task_prompts.py:19-25 | a task's group is "Inbox" when it has no project id or the id is unknown; otherwise it is the name of the last project listed with that id |
| TaskPrompts.GroupKeys | src/prompts/task_prompts.py:22-28 | the groups appear in the order in which their first task occurs, each exactly once |
| TaskPrompts.GroupMembers | src/prompts/task_prompts.py:22-28 | a group holds exactly the tasks that map to its name, in input order; a name no task maps to has no group |
| TaskPrompts.TaskInOneGroup | src/prompts/task_prompts.py:23-28 | a task lies in a group exactly when that group is the task's project name |
| TaskPrompts.GroupsHoldEveryTask | src/prompts/task_prompts.py:22-28 | the groups together hold as many tasks as the input: none is lost or duplicated |
| TaskPrompts.GroupLinesCount | src/prompts/task_prompts.py:35-40 | the overview has two lines per group (blank line and heading) plus one per task |
| TaskPrompts.DailyPlanning | src/prompts/task_prompts.py:12-54 | a failed task fetch is reported first, then a failed project fetch; the text starts with the error prefix exactly when a fetch failed, and otherwise with the session heading |
| TaskPrompts.DailyPlanningLines | src/prompts/task_prompts.py:30-49 | the prompt's lines are the fixed heading, the group lines and the fixed questions; the group part has two lines per distinct group plus one line per task |
| TaskPrompts.WeeklyReview | src/prompts/task_prompts.py:83-135 | a failed task fetch is reported first, then a failed project fetch; the text starts with the error prefix exactly when a fetch failed |
| TaskPrompts.BucketSectionShape | src/prompts/task_prompts.py:120-128 | an empty bucket adds nothing; a non-empty one adds a heading with the full count, then at most five content lines, the first ones of the bucket |
| TaskPrompts.WeeklyBucketCounts | src/prompts/task_prompts.py:116-118 | each bucket counts exactly the tasks of its priority; when priorities are 1 to 4 the three buckets partition the tasks |
| TaskPrompts.WeeklyReviewLines | src/prompts/task_prompts.py:89-130 | the lines are the status block with both counts, the fixed questions, the bucket sections and the "Other Tasks" line |
| TaskPrompts.TaskBreakdown | src/prompts/task_prompts.py:57-80 | the description is recovered verbatim from the generated prompt |
| ProjectPrompts.FindByName | src/prompts/project_prompts.py:16 | the first project whose name matches without regard to case; none exactly when no project matches |
| ProjectPrompts.FindByNameIgnoresCase | src/prompts/project_prompts.py:16 | lower-casing the requested name does not change which project is found |
| ProjectPrompts.ProjectPlanning | src/prompts/project_prompts.py:12-77 | a failed project fetch is reported; with no match, the new-project template gives back the requested name; with a match, a failed task fetch for that project is reported; the error prefix appears exactly in those error cases |
| ProjectPrompts.ProjectPlanningReadsOnlyMatch | src/prompts/project_prompts.py:18-20 | the prompt depends on the per-project task fetch only through the matched project's id |
| ProjectPrompts.ListedTasksAccount | src/prompts/project_prompts.py:30-36 | at most ten tasks are listed, the first ones; the overflow line appears exactly when more exist and counts the rest |
| ProjectPrompts.ExistingPlanLines | src/prompts/project_prompts.py:22-45 | the lines are the heading block with the project id and task count, the listed tasks and the fixed questions |
| ProjectPrompts.ProjectStats | src/prompts/project_prompts.py:88-98 | the statistics carry the project id; the total counts the project's tasks; the high and overdue counts do not exceed the total |
| ProjectPrompts.ProjectStatsCounts | src/prompts/project_prompts.py:89-91 | high counts the project's tasks of priority at least 3; overdue counts its tasks with a due value that mentions "overdue" |
| ProjectPrompts.StatsByNameLookup | src/prompts/project_prompts.py:87-98 | one entry per distinct project name, in first-occurrence order; a name maps to the statistics of the last project that has it |
| ProjectPrompts.StatusMarker | src/prompts/project_prompts.py:106 | red exactly when something is overdue; yellow exactly when nothing is overdue and some task is high priority; green otherwise; never white |
| ProjectPrompts.StatusMarkerMonotone | src/prompts/project_prompts.py:106 | more overdue or high-priority tasks never make the marker less severe |
| ProjectPrompts.OverviewLineNotes | src/prompts/project_prompts.py:107-113 | the line ends with the task count, then the high-priority note exactly when a task is high priority, then the overdue note exactly when something is overdue; the overdue note ends the line exactly when something is overdue |
| ProjectPrompts.OverviewLineOfName | src/prompts/project_prompts.py:105-113 | a name's overview line sits at the name's first occurrence and shows the statistics of the last project with that name |
| ProjectPrompts.ProjectReview | src/prompts/project_prompts.py:80-143 | a failed project fetch is reported first, then a failed task fetch; the text starts with the error prefix exactly when a fetch failed, and otherwise with the portfolio heading |
| ProjectPrompts.ProjectReviewLines | src/prompts/project_prompts.py:100-138 | the lines are the fixed heading, one overview line per distinct project name and the fixed framework; no projects give no overview lines |
| ProjectPrompts.ProjectCompletion | src/prompts/project_prompts.py:146-180 | the project name is recovered verbatim from the generated prompt |

## Left out

- HTTP is not modelled: `httpx`, `raise_for_status` and JSON decoding of responses. A response reaches the model as a `Result` whose error is the exception's text.
- `async` execution is not modelled, and neither is any interleaving of the awaited calls. The order of the fetches is kept, because it decides which error is reported.
- Reading the environment is not modelled. The value of TODOIST_API_TOKEN is a parameter of `NewClient`.
- The server wiring is not modelled: FastMCP registration, the tool adapters, `server.py` and `http_server.py`. They wrap the modelled calls and add their own error messages and result shapes. Examples: the adapters re-raise failures as "Failed to …", `complete_task` returns a status mapping, and client setup validates a new client with one project fetch.
- Tasks and projects are typed records. A JSON object that lacks a field the source indexes, such as `task['priority']`, would raise `KeyError`. The source would then return its error text, and the model has no such input.
- `task.get('due')` is truthy for a present, non-empty due mapping. The model's `Some` due stands for that case; an empty mapping counts as absent.
- ProjectPrompts.ProjectStatsCounts: the overdue test looks for "overdue" in a `repr` string. That string stands for Python's `str()` of the due mapping, which the model does not render.
- ProjectPrompts.FindByName: names are compared after ASCII lower-casing only. Python's `str.lower` also folds non-ASCII letters.
- TodoistClient.CreateTask: the priority is an `Option`. `None` means the argument was omitted, which gives the default 1. The callers never pass `None`.
- TaskPrompts.DailyPlanningLines: the fixed heading and question blocks are kept symbolic as `Text.Split` of their constants. The lemma does not spell out their individual lines.
- TaskPrompts.WeeklyReviewLines: the fixed question block is kept symbolic in the same way.
- ProjectPrompts.ExistingPlanLines: the fixed question block is kept symbolic in the same way.
- ProjectPrompts.ProjectReviewLines: the fixed heading and framework blocks are kept symbolic in the same way.
- The line-structure lemmas assume that the fields they render (names, contents, ids, due texts) hold no newline. With a newline inside a field, a single item would span several lines.
- `project_prompts.py` repeats the priority marker and task line code of `task_prompts.py` verbatim. The model defines them once, in `TaskPrompts`, and uses them from both prompt modules.
