/** Request shaping in the Todoist API client (src/todoist_client.py).

    Each client operation is modelled by the request it would send: verb,
    URL, headers, query parameters and JSON body.  The HTTP round trip itself
    is not modelled; its outcome reaches the rest of the model as a `Result`. */
module TodoistClient {
  import opened Wrappers
  import opened Assoc
  import Seqs
  import Text

  const BaseUrl: string := "https://api.todoist.com/rest/v2"
  const MissingTokenMessage: string :=
    "Todoist API token is required. Set TODOIST_API_TOKEN environment variable."
  /** The priority sent when the caller gives none. */
  const DefaultPriority: int := 1

  /** A constructed client; construction guarantees a non-empty token. */
  datatype Client = Client(token: string)

  /** Python truthiness of an optional string: present and non-empty. */
  predicate Truthy(s: Option<string>) {
    s.Some? && |s.value| > 0
  }

  /** Python truthiness of an optional list: present and non-empty. */
  predicate NonEmptyList(s: Option<seq<string>>) {
    s.Some? && |s.value| > 0
  }

  /** `TodoistClient(api_token)` where `envToken` is what reading the
      TODOIST_API_TOKEN environment variable returns. */
  function NewClient(apiToken: Option<string>, envToken: Option<string>): (r: Result<Client>)
    ensures r.Ok? <==> Truthy(apiToken) || Truthy(envToken)
    ensures r.Ok? ==> |r.value.token| > 0
    ensures r.Ok? && Truthy(apiToken) ==> r.value.token == apiToken.value
    ensures r.Ok? && !Truthy(apiToken) ==> r.value.token == envToken.value
    ensures r.Err? ==> r.error == MissingTokenMessage
  {
    var chosen := if Truthy(apiToken) then apiToken else envToken;
    if Truthy(chosen) then Ok(Client(chosen.value)) else Err(MissingTokenMessage)
  }

  // ---------------------------------------------------------------------------
  // Headers
  // ---------------------------------------------------------------------------

  /** The `headers` property. */
  function Headers(c: Client): Dict<string, string> {
    [("Authorization", "Bearer " + c.token), ("Content-Type", "application/json")]
  }

  /** The token a receiver reads back from an Authorization header. */
  function BearerToken(h: Dict<string, string>): Option<string> {
    match Lookup(h, "Authorization")
    case Some(v) => if Text.StartsWith(v, "Bearer ") then Some(v[7..]) else None
    case None => None
  }

  /** The headers carry exactly two fields: the client's own token as a
      bearer credential, and a JSON content type. */
  lemma HeadersCarryToken(c: Client)
    ensures Keys(Headers(c)) == ["Authorization", "Content-Type"]
    ensures BearerToken(Headers(c)) == Some(c.token)
    ensures Lookup(Headers(c), "Content-Type") == Some("application/json")
  {
    assert ("Bearer " + c.token)[7..] == c.token;
  }

  // ---------------------------------------------------------------------------
  // Endpoints
  // ---------------------------------------------------------------------------

  datatype Endpoint = TasksEndpoint | CloseTaskEndpoint(taskId: string) | ProjectsEndpoint

  function EndpointUrl(e: Endpoint): string {
    match e
    case TasksEndpoint => BaseUrl + "/tasks"
    case CloseTaskEndpoint(id) => BaseUrl + "/tasks/" + id + "/close"
    case ProjectsEndpoint => BaseUrl + "/projects"
  }

  /** Which endpoint a URL addresses, as a router for the REST root would read it. */
  function ParseEndpoint(url: string): Option<Endpoint> {
    if !Text.StartsWith(url, BaseUrl) then None
    else
      var path := url[|BaseUrl|..];
      if path == "/tasks" then Some(TasksEndpoint)
      else if path == "/projects" then Some(ProjectsEndpoint)
      else if |path| >= 13 && Text.StartsWith(path, "/tasks/") && Text.EndsWith(path, "/close") then
        Some(CloseTaskEndpoint(path[7..|path| - 6]))
      else None
  }

  /** Every endpoint URL lies under the REST root and is read back as the same
      endpoint, so the task id of a close request is recovered verbatim. */
  lemma EndpointRoundTrip(e: Endpoint)
    ensures Text.StartsWith(EndpointUrl(e), BaseUrl)
    ensures ParseEndpoint(EndpointUrl(e)) == Some(e)
  {
    var url := EndpointUrl(e);
    assert url[..|BaseUrl|] == BaseUrl;
    match e
    case TasksEndpoint =>
      assert url[|BaseUrl|..] == "/tasks";
    case ProjectsEndpoint =>
      assert url[|BaseUrl|..] == "/projects";
    case CloseTaskEndpoint(id) =>
      var path := url[|BaseUrl|..];
      assert path == "/tasks/" + id + "/close";
      assert path[..7] == "/tasks/";
      assert path[|path| - 6..] == "/close";
      assert path[7..|path| - 6] == id;
      assert path != "/tasks" && path != "/projects" by {
        assert |path| >= 13;
      }
  }

  // ---------------------------------------------------------------------------
  // Query parameters and JSON bodies
  // ---------------------------------------------------------------------------

  datatype Json = JString(str: string) | JInt(number: int) | JStrings(items: seq<string>)

  /** Query parameters of `get_tasks`. */
  function TasksParams(projectId: Option<string>): (p: Dict<string, string>)
    ensures Truthy(projectId) ==> Keys(p) == ["project_id"] && Lookup(p, "project_id") == Some(projectId.value)
    ensures !Truthy(projectId) ==> |p| == 0
  {
    var empty: Dict<string, string> := [];
    if Truthy(projectId) then Put(empty, "project_id", projectId.value) else empty
  }

  /** Body of `create_task`; `priority == None` is an omitted argument.  The
      optional fields are assigned one after another, as in the source. */
  function TaskBody(
    content: string,
    projectId: Option<string>,
    labels: Option<seq<string>>,
    priority: Option<int>,
    dueString: Option<string>
  ): Dict<string, Json>
  {
    var b0: Dict<string, Json> := [("content", JString(content)), ("priority", JInt(priority.GetOr(DefaultPriority)))];
    var b1 := PutIf(b0, Truthy(projectId), "project_id", JString(projectId.GetOr("")));
    var b2 := PutIf(b1, NonEmptyList(labels), "labels", JStrings(labels.GetOr([])));
    PutIf(b2, Truthy(dueString), "due_string", JString(dueString.GetOr("")))
  }

  /** `if value: d[key] = value` */
  function PutIf(d: Dict<string, Json>, present: bool, key: string, value: Json): Dict<string, Json> {
    if present then Put(d, key, value) else d
  }

  lemma PutIfLookup(d: Dict<string, Json>, present: bool, key: string, value: Json, k: string)
    ensures Lookup(PutIf(d, present, key, value), k) == if present && k == key then Some(value) else Lookup(d, k)
  {
    if present && k != key {
      PutOther(d, key, value, k);
    }
  }

  /** A conditional assignment of a new key appends it when it applies. */
  lemma PutIfKeys(d: Dict<string, Json>, present: bool, key: string, value: Json)
    requires key !in Keys(d)
    ensures Keys(PutIf(d, present, key, value)) == Keys(d) + if present then [key] else []
  {
    if present {
      PutKeys(d, key, value);
    }
  }

  /** Lookup through three conditional assignments: the last one that applies to `k` wins. */
  lemma PutIf3Lookup(
    d: Dict<string, Json>,
    p1: bool, k1: string, v1: Json,
    p2: bool, k2: string, v2: Json,
    p3: bool, k3: string, v3: Json,
    k: string
  )
    ensures Lookup(PutIf(PutIf(PutIf(d, p1, k1, v1), p2, k2, v2), p3, k3, v3), k)
         == if p3 && k == k3 then Some(v3)
            else if p2 && k == k2 then Some(v2)
            else if p1 && k == k1 then Some(v1)
            else Lookup(d, k)
  {
    PutIfLookup(d, p1, k1, v1, k);
    PutIfLookup(PutIf(d, p1, k1, v1), p2, k2, v2, k);
    PutIfLookup(PutIf(PutIf(d, p1, k1, v1), p2, k2, v2), p3, k3, v3, k);
  }

  /** The task body always names the content and a priority (1 when omitted);
      project, labels and due string are present exactly when given non-empty,
      and never with an empty value. */
  lemma TaskBodyFields(
    content: string,
    projectId: Option<string>,
    labels: Option<seq<string>>,
    priority: Option<int>,
    dueString: Option<string>
  )
    ensures var b := TaskBody(content, projectId, labels, priority, dueString);
      && Lookup(b, "content") == Some(JString(content))
      && Lookup(b, "priority") == Some(JInt(priority.GetOr(DefaultPriority)))
      && Lookup(b, "project_id") == (if Truthy(projectId) then Some(JString(projectId.value)) else None)
      && Lookup(b, "labels") == (if NonEmptyList(labels) then Some(JStrings(labels.value)) else None)
      && Lookup(b, "due_string") == (if Truthy(dueString) then Some(JString(dueString.value)) else None)
  {
    var b0: Dict<string, Json> := [("content", JString(content)), ("priority", JInt(priority.GetOr(DefaultPriority)))];
    var b1 := PutIf(b0, Truthy(projectId), "project_id", JString(projectId.GetOr("")));
    var b2 := PutIf(b1, NonEmptyList(labels), "labels", JStrings(labels.GetOr([])));
    var b3 := PutIf(b2, Truthy(dueString), "due_string", JString(dueString.GetOr("")));
    assert b3 == TaskBody(content, projectId, labels, priority, dueString);
    var v1, v2, v3 := JString(projectId.GetOr("")), JStrings(labels.GetOr([])), JString(dueString.GetOr(""));
    var p1, p2, p3 := Truthy(projectId), NonEmptyList(labels), Truthy(dueString);
    assert Keys(b0) == ["content", "priority"];
    LookupFindsKeys(b0, "project_id");
    LookupFindsKeys(b0, "labels");
    LookupFindsKeys(b0, "due_string");
    PutIf3Lookup(b0, p1, "project_id", v1, p2, "labels", v2, p3, "due_string", v3, "content");
    PutIf3Lookup(b0, p1, "project_id", v1, p2, "labels", v2, p3, "due_string", v3, "priority");
    PutIf3Lookup(b0, p1, "project_id", v1, p2, "labels", v2, p3, "due_string", v3, "project_id");
    PutIf3Lookup(b0, p1, "project_id", v1, p2, "labels", v2, p3, "due_string", v3, "labels");
    PutIf3Lookup(b0, p1, "project_id", v1, p2, "labels", v2, p3, "due_string", v3, "due_string");
  }

  /** The task body's keys, in the order a JSON encoder writes them: content and
      priority first, then each optional field that is present. */
  lemma TaskBodyKeys(
    content: string,
    projectId: Option<string>,
    labels: Option<seq<string>>,
    priority: Option<int>,
    dueString: Option<string>
  )
    ensures Keys(TaskBody(content, projectId, labels, priority, dueString))
         == ["content", "priority"]
            + (if Truthy(projectId) then ["project_id"] else [])
            + (if NonEmptyList(labels) then ["labels"] else [])
            + (if Truthy(dueString) then ["due_string"] else [])
  {
    var b0: Dict<string, Json> := [("content", JString(content)), ("priority", JInt(priority.GetOr(DefaultPriority)))];
    var b1 := PutIf(b0, Truthy(projectId), "project_id", JString(projectId.GetOr("")));
    var b2 := PutIf(b1, NonEmptyList(labels), "labels", JStrings(labels.GetOr([])));
    var b3 := PutIf(b2, Truthy(dueString), "due_string", JString(dueString.GetOr("")));
    var k0 := ["content", "priority"];
    var k1 := k0 + (if Truthy(projectId) then ["project_id"] else []);
    var k2 := k1 + (if NonEmptyList(labels) then ["labels"] else []);
    assert Keys(b0) == k0;
    PutIfKeys(b0, Truthy(projectId), "project_id", JString(projectId.GetOr("")));
    PutIfKeys(b1, NonEmptyList(labels), "labels", JStrings(labels.GetOr([])));
    PutIfKeys(b2, Truthy(dueString), "due_string", JString(dueString.GetOr("")));
  }

  /** Body of `create_project`. */
  function ProjectBody(name: string, color: Option<string>): Dict<string, Json> {
    var b0: Dict<string, Json> := [("name", JString(name))];
    PutIf(b0, Truthy(color), "color", JString(color.GetOr("")))
  }

  /** The project body always names the project and carries a colour exactly
      when a non-empty one is given. */
  lemma ProjectBodyFields(name: string, color: Option<string>)
    ensures var b := ProjectBody(name, color);
      && Lookup(b, "name") == Some(JString(name))
      && Lookup(b, "color") == (if Truthy(color) then Some(JString(color.value)) else None)
      && Seqs.NoDuplicates(Keys(b))
      && forall i :: 0 <= i < |b| ==> b[i].0 in ["name", "color"]
  {
    var b0: Dict<string, Json> := [("name", JString(name))];
    assert Keys(b0) == ["name"];
    if Truthy(color) {
      PutLookup(b0, "color", JString(color.value));
      PutKeys(b0, "color", JString(color.value));
      var b := ProjectBody(name, color);
      assert forall i :: 0 <= i < |b| ==> b[i].0 == Keys(b)[i];
    }
  }

  // ---------------------------------------------------------------------------
  // Requests
  // ---------------------------------------------------------------------------

  datatype Verb = Get | Post

  datatype Request = Request(
    verb: Verb,
    url: string,
    headers: Dict<string, string>,
    params: Dict<string, string>,
    body: Option<Dict<string, Json>>
  )

  /** A request every operation sends: authorized with the client's token. */
  predicate Authorized(c: Client, r: Request) {
    BearerToken(r.headers) == Some(c.token)
    && Lookup(r.headers, "Content-Type") == Some("application/json")
  }

  /** `get_tasks(project_id)` */
  function GetTasks(c: Client, projectId: Option<string>): (r: Request)
    ensures Authorized(c, r)
    ensures r.verb == Get && ParseEndpoint(r.url) == Some(TasksEndpoint)
    ensures r.params == TasksParams(projectId) && r.body.None?
  {
    HeadersCarryToken(c);
    EndpointRoundTrip(TasksEndpoint);
    Request(Get, EndpointUrl(TasksEndpoint), Headers(c), TasksParams(projectId), None)
  }

  /** `create_task(content, project_id, labels, priority, due_string)` */
  function CreateTask(
    c: Client,
    content: string,
    projectId: Option<string>,
    labels: Option<seq<string>>,
    priority: Option<int>,
    dueString: Option<string>
  ): (r: Request)
    ensures Authorized(c, r)
    ensures r.verb == Post && ParseEndpoint(r.url) == Some(TasksEndpoint)
    ensures |r.params| == 0 && r.body == Some(TaskBody(content, projectId, labels, priority, dueString))
  {
    HeadersCarryToken(c);
    EndpointRoundTrip(TasksEndpoint);
    Request(Post, EndpointUrl(TasksEndpoint), Headers(c), [],
            Some(TaskBody(content, projectId, labels, priority, dueString)))
  }

  /** `complete_task(task_id)`: a body-less POST to the task's close endpoint. */
  function CompleteTask(c: Client, taskId: string): (r: Request)
    ensures Authorized(c, r)
    ensures r.verb == Post && ParseEndpoint(r.url) == Some(CloseTaskEndpoint(taskId))
    ensures |r.params| == 0 && r.body.None?
  {
    HeadersCarryToken(c);
    EndpointRoundTrip(CloseTaskEndpoint(taskId));
    Request(Post, EndpointUrl(CloseTaskEndpoint(taskId)), Headers(c), [], None)
  }

  /** What `complete_task` returns once its response arrives: `True` on
      success; a failed response surfaces as the error. */
  function CompleteTaskOutcome(response: Result<()>): (r: Result<bool>)
    ensures r.Ok? <==> response.Ok?
    ensures r.Ok? ==> r.value
    ensures r.Err? ==> r.error == response.error
  {
    match response
    case Ok(_) => Ok(true)
    case Err(e) => Err(e)
  }

  /** `get_projects()` */
  function GetProjects(c: Client): (r: Request)
    ensures Authorized(c, r)
    ensures r.verb == Get && ParseEndpoint(r.url) == Some(ProjectsEndpoint)
    ensures |r.params| == 0 && r.body.None?
  {
    HeadersCarryToken(c);
    EndpointRoundTrip(ProjectsEndpoint);
    Request(Get, EndpointUrl(ProjectsEndpoint), Headers(c), [], None)
  }

  /** `create_project(name, color)` */
  function CreateProject(c: Client, name: string, color: Option<string>): (r: Request)
    ensures Authorized(c, r)
    ensures r.verb == Post && ParseEndpoint(r.url) == Some(ProjectsEndpoint)
    ensures |r.params| == 0 && r.body == Some(ProjectBody(name, color))
  {
    HeadersCarryToken(c);
    EndpointRoundTrip(ProjectsEndpoint);
    Request(Post, EndpointUrl(ProjectsEndpoint), Headers(c), [], Some(ProjectBody(name, color)))
  }
}
