/**
 * `EvaTools` (src/tools.py): flat tool arguments become filter triples and
 * sparse keyword dicts for the client, and every outcome is wrapped in a
 * JSON envelope. Envelopes are modelled as the dicts handed to `json.dumps`.
 */
module Tools {
  import opened Wrappers
  import opened PyJson
  import opened EvaRpc
  import opened Client

  /** A filter triple `[field, operator, value]`. */
  datatype Filter = Filter(field: string, op: string, value: string)

  function FilterJson(f: Filter): Json {
    JArray([JString(f.field), JString(f.op), JString(f.value)])
  }

  /** A list of filter triples as the JSON list the client forwards. */
  function FiltersJson(fs: seq<Filter>): (j: seq<Json>)
    ensures |j| == |fs|
    ensures forall k :: 0 <= k < |fs| ==> j[k] == FilterJson(fs[k])
  {
    seq(|fs|, k requires 0 <= k < |fs| => FilterJson(fs[k]))
  }

  /** `["field", "=", v]` when `v` is given and non-empty, nothing otherwise. */
  function EqualsIf(field: string, v: Option<string>): seq<Filter> {
    if Present(v) then [Filter(field, "=", v.value)] else []
  }

  /** `["name", "ilike", "%q%"]` when the query is given and non-empty, nothing otherwise. */
  function NameLike(query: Option<string>): seq<Filter> {
    if Present(query) then [Filter("name", "ilike", "%" + query.value + "%")] else []
  }

  /** The filters of `search_tasks`, appended in the order parent, responsible, status, name. */
  function TaskFilters(query: Option<string>, project: Option<string>, responsible: Option<string>,
                       status: Option<string>): seq<Filter> {
    EqualsIf("parent", project) + EqualsIf("responsible", responsible) + EqualsIf("status", status) + NameLike(query)
  }

  /** The position of a field in the fixed order `search_tasks` appends its filters in. */
  function FieldRank(field: string): int {
    if field == "parent" then 0
    else if field == "responsible" then 1
    else if field == "status" then 2
    else if field == "name" then 3
    else 4
  }

  /** The fields of `fs` come in strictly increasing rank, so no field occurs twice. */
  ghost predicate Increasing(fs: seq<Filter>) {
    forall i, j :: 0 <= i < j < |fs| ==> FieldRank(fs[i].field) < FieldRank(fs[j].field)
  }

  /** Every field of `fs` ranks below `r`. */
  ghost predicate RanksBelow(fs: seq<Filter>, r: int) {
    forall k :: 0 <= k < |fs| ==> FieldRank(fs[k].field) < r
  }

  /** Appending at most one filter of rank `r` to filters ranked below `r` keeps them increasing. */
  lemma AppendRanked(xs: seq<Filter>, s: seq<Filter>, r: int)
    requires Increasing(xs) && RanksBelow(xs, r)
    requires |s| <= 1 && forall k :: 0 <= k < |s| ==> FieldRank(s[k].field) == r
    ensures Increasing(xs + s) && RanksBelow(xs + s, r + 1)
  {
    var ys := xs + s;
    forall i, j | 0 <= i < j < |ys| ensures FieldRank(ys[i].field) < FieldRank(ys[j].field) {
      if j < |xs| {
        assert ys[i] == xs[i] && ys[j] == xs[j];
      } else {
        assert ys[i] == xs[i] && ys[j] == s[j - |xs|];
      }
    }
    forall k | 0 <= k < |ys| ensures FieldRank(ys[k].field) < r + 1 {
      if k < |xs| { assert ys[k] == xs[k]; } else { assert ys[k] == s[k - |xs|]; }
    }
  }

  /**
   * `search_tasks` appends its filters in the fixed order parent,
   * responsible, status, name: the fields come in strictly increasing
   * rank, so each occurs at most once and only those four occur.
   */
  lemma TaskFiltersOrdered(query: Option<string>, project: Option<string>, responsible: Option<string>,
                           status: Option<string>)
    ensures Increasing(TaskFilters(query, project, responsible, status))
    ensures RanksBelow(TaskFilters(query, project, responsible, status), 4)
  {
    var a := EqualsIf("parent", project);
    var b := EqualsIf("responsible", responsible);
    var c := EqualsIf("status", status);
    var d := NameLike(query);
    assert FieldRank("parent") == 0 && FieldRank("responsible") == 1;
    assert FieldRank("status") == 2 && FieldRank("name") == 3;
    AppendRanked([], a, 0);
    assert [] + a == a;
    AppendRanked(a, b, 1);
    AppendRanked(a + b, c, 2);
    AppendRanked(a + b + c, d, 3);
  }

  /**
   * A filter is in the `search_tasks` list exactly when its argument is
   * truthy: an equality on the project (as `parent`), the responsible or
   * the status, or an `ilike` of the name against `%query%`.
   */
  lemma TaskFiltersMembers(query: Option<string>, project: Option<string>, responsible: Option<string>,
                           status: Option<string>, f: Filter)
    ensures f in TaskFilters(query, project, responsible, status) <==>
      || (Present(project) && f == Filter("parent", "=", project.value))
      || (Present(responsible) && f == Filter("responsible", "=", responsible.value))
      || (Present(status) && f == Filter("status", "=", status.value))
      || (Present(query) && f == Filter("name", "ilike", "%" + query.value + "%"))
  {
  }

  /** What the client receives for a filter list: `None` for an empty list, the triples otherwise. */
  function FilterArgument(fs: seq<Filter>): (r: Option<seq<Json>>)
    ensures r.None? <==> fs == []
    ensures r.Some? ==> r.value == FiltersJson(fs)
  {
    if fs == [] then None else Some(FiltersJson(fs))
  }

  /** A non-`None` filter argument is never empty, so the client always forwards it. */
  lemma FilterArgumentForwarded(fs: seq<Filter>)
    ensures Given(FilterArgument(fs)) <==> fs != []
  {
  }

  // ---------------------------------------------------------------------
  // Envelopes
  // ---------------------------------------------------------------------

  /** What a tool does with its outcome: return an envelope, or let a `TypeError` from `len()` escape. */
  datatype ToolOutcome = Returned(envelope: Json) | Raised(typeError: string)

  /** The `except EvaAPIError` envelope; `code` is always present and `None` for code-less errors. */
  function ErrorEnvelope(e: ApiError): (j: Json)
    ensures j.JObject? && j.fields.Keys == {"success", "error", "code"}
    ensures j.fields["success"] == JBool(false)
  {
    JObject(map[
      "success" := JBool(false),
      "error" := JString(e.message),
      "code" := if e.code.Some? then JInt(e.code.value) else JNull])
  }

  /** How a reader of an error envelope recovers the message and the code. */
  function ReadErrorEnvelope(j: Json): Option<(string, Option<int>)> {
    if j.JObject? && j.fields.Keys == {"success", "error", "code"}
      && j.fields["success"] == JBool(false) && j.fields["error"].JString?
      && (j.fields["code"].JInt? || j.fields["code"] == JNull)
    then Some((j.fields["error"].s, if j.fields["code"].JInt? then Some(j.fields["code"].i) else None))
    else None
  }

  /** The error envelope keeps the exception's message and code, null included. */
  lemma ErrorEnvelopeRoundTrip(e: ApiError)
    ensures ReadErrorEnvelope(ErrorEnvelope(e)) == Some((e.message, e.code))
  {
  }

  /** The envelope of a list tool: `count` is `len()` of the result, which sits under `key`. */
  function ListEnvelope(key: string, r: Result<Json, ApiError>): (o: ToolOutcome)
    requires key != "success" && key != "count"
    ensures r.Failure? ==> o == Returned(ErrorEnvelope(r.error))
    ensures r.Success? && r.value.JArray? ==>
              o.Returned? && o.envelope.JObject? && o.envelope.fields.Keys == {"success", "count", key}
              && o.envelope.fields["success"] == JBool(true)
              && o.envelope.fields["count"] == JInt(|r.value.items|)
              && o.envelope.fields[key] == r.value
    ensures r.Success? && PyLen(r.value).Success? ==>
              o.Returned? && o.envelope.JObject? && o.envelope.fields.Keys == {"success", "count", key}
              && o.envelope.fields["success"] == JBool(true)
              && o.envelope.fields["count"] == JInt(PyLen(r.value).value)
              && o.envelope.fields[key] == r.value
    ensures r.Success? ==> (o.Raised? <==> r.value.JNull? || r.value.JBool? || r.value.JInt?)
    ensures r.Success? && o.Raised? ==> o.typeError == "object of type '" + TypeName(r.value) + "' has no len()"
  {
    match r
    case Failure(e) => Returned(ErrorEnvelope(e))
    case Success(v) =>
      match PyLen(v)
      case Failure(typeError) => Raised(typeError)
      case Success(n) => Returned(JObject(map["success" := JBool(true), "count" := JInt(n), key := v]))
  }

  /** The envelope of a details tool: the result under `key`. */
  function DetailEnvelope(key: string, r: Result<Json, ApiError>): (j: Json)
    requires key != "success"
    ensures r.Success? ==> j.JObject? && j.fields.Keys == {"success", key}
                           && j.fields["success"] == JBool(true) && j.fields[key] == r.value
    ensures r.Failure? ==> j == ErrorEnvelope(r.error)
  {
    match r
    case Failure(e) => ErrorEnvelope(e)
    case Success(v) => JObject(map["success" := JBool(true), key := v])
  }

  /** The envelope of a write tool: the result under `key` and a fixed confirmation message. */
  function WriteEnvelope(key: string, message: string, r: Result<Json, ApiError>): (j: Json)
    requires key != "success" && key != "message"
    ensures r.Success? ==> j.JObject? && j.fields.Keys == {"success", key, "message"}
                           && j.fields["success"] == JBool(true) && j.fields[key] == r.value
                           && j.fields["message"] == JString(message)
    ensures r.Failure? ==> j == ErrorEnvelope(r.error)
  {
    match r
    case Failure(e) => ErrorEnvelope(e)
    case Success(v) => JObject(map["success" := JBool(true), key := v, "message" := JString(message)])
  }

  /** The envelope of `count_tasks_by_filter`: the backend's count unchanged and the filters it built. */
  function CountEnvelope(r: Result<Json, ApiError>, fs: seq<Filter>): (j: Json)
    ensures r.Success? ==> j.JObject? && j.fields.Keys == {"success", "count", "filters"}
                           && j.fields["success"] == JBool(true) && j.fields["count"] == r.value
                           && j.fields["filters"] == JArray(FiltersJson(fs))
    ensures r.Failure? ==> j == ErrorEnvelope(r.error)
  {
    match r
    case Failure(e) => ErrorEnvelope(e)
    case Success(v) => JObject(map["success" := JBool(true), "count" := v, "filters" := JArray(FiltersJson(fs))])
  }

  /** Whatever the call returns, the envelope reports success exactly when the call succeeded. */
  lemma EnvelopesReportSuccess(key: string, message: string, r: Result<Json, ApiError>, fs: seq<Filter>)
    requires key != "success" && key != "count" && key != "message"
    ensures DetailEnvelope(key, r).fields["success"] == JBool(r.Success?)
    ensures WriteEnvelope(key, message, r).fields["success"] == JBool(r.Success?)
    ensures CountEnvelope(r, fs).fields["success"] == JBool(r.Success?)
    ensures ListEnvelope(key, r).Returned? ==> ListEnvelope(key, r).envelope.fields["success"] == JBool(r.Success?)
    ensures r.Failure? ==> ReadErrorEnvelope(WriteEnvelope(key, message, r)) == Some((r.error.message, r.error.code))
  {
    if r.Failure? {
      ErrorEnvelopeRoundTrip(r.error);
    }
  }

  /**
   * `search_tasks(query="test")` with two tasks back: the only filter is
   * the name pattern, and the envelope counts both tasks.
   */
  lemma SearchTasksExample(t1: Json, t2: Json)
    ensures TaskFilters(Some("test"), None, None, None) == [Filter("name", "ilike", "%test%")]
    ensures var o := ListEnvelope("tasks", Success(JArray([t1, t2])));
      o.Returned? && o.envelope.fields["success"] == JBool(true) && o.envelope.fields["count"] == JInt(2)
  {
    assert "%" + "test" + "%" == "%test%";
  }

  /**
   * `count_tasks_by_filter(project="PROJECT-1")` with the backend answering
   * 42: the count comes back unchanged beside the one parent filter.
   */
  lemma CountTasksExample()
    ensures var fs := TaskFilters(None, Some("PROJECT-1"), None, None);
      && fs == [Filter("parent", "=", "PROJECT-1")]
      && CountEnvelope(Success(JInt(42)), fs).fields["count"] == JInt(42)
  {
  }

  /** An `EvaAPIError("API Error", code=-32600)` becomes an envelope with that message and code. */
  lemma SearchTasksErrorExample()
    ensures var o := ListEnvelope("tasks", Failure(ApiError("API Error", Some(-32600), map[])));
      && o.Returned? && o.envelope.fields["success"] == JBool(false)
      && o.envelope.fields["error"] == JString("API Error") && o.envelope.fields["code"] == JInt(-32600)
  {
  }

  /** The extra keyword of the `create_task` tool: `priority` whenever it is given, 0 included. */
  function PriorityKwargs(priority: Option<int>): map<string, Json> {
    if priority.Some? then map["priority" := JInt(priority.value)] else map[]
  }

  /**
   * The parameters `create_task` ends up sending: the description travels
   * as the client's `text` argument and only when non-empty; `priority` is
   * sent whenever it is not `None`.
   */
  function CreateTaskToolParams(name: string, projectCode: Option<string>, lists: Option<seq<string>>,
                                description: Option<string>, responsible: Option<string>,
                                priority: Option<int>): map<string, Json> {
    CreateTaskParams(name, projectCode, lists, if Present(description) then description else None,
                     responsible, PriorityKwargs(priority))
  }

  lemma CreateTaskToolSparse(name: string, projectCode: Option<string>, lists: Option<seq<string>>,
                             description: Option<string>, responsible: Option<string>, priority: Option<int>)
    ensures var p := CreateTaskToolParams(name, projectCode, lists, description, responsible, priority);
      && p["name"] == JString(name)
      && ("text" in p <==> Present(description))
      && ("text" in p ==> p["text"] == JString(description.value))
      && ("priority" in p <==> priority.Some?)
      && ("priority" in p ==> p["priority"] == JInt(priority.value))
      && ("parent" in p <==> Present(projectCode))
      && p.Keys <= {"name", "parent", "lists", "text", "responsible", "priority"}
  {
    var p := CreateTaskToolParams(name, projectCode, lists, description, responsible, priority);
    assert "priority" !in CreateTaskNames;
    if "priority" in p {
      assert "priority" in PriorityKwargs(priority);
    }
  }

  /**
   * The keyword arguments of the `update_task` tool: `name`, `text` (from
   * the description), `responsible` and `status` when non-empty; `priority`
   * whenever it is not `None`, so a priority of 0 is sent.
   */
  function UpdateTaskKwargs(name: Option<string>, description: Option<string>, responsible: Option<string>,
                            status: Option<string>, priority: Option<int>): (m: map<string, Json>)
    ensures "name" in m <==> Present(name)
    ensures "text" in m <==> Present(description)
    ensures "responsible" in m <==> Present(responsible)
    ensures "status" in m <==> Present(status)
    ensures "priority" in m <==> priority.Some?
    ensures "name" in m ==> m["name"] == JString(name.value)
    ensures "text" in m ==> m["text"] == JString(description.value)
    ensures "responsible" in m ==> m["responsible"] == JString(responsible.value)
    ensures "status" in m ==> m["status"] == JString(status.value)
    ensures "priority" in m ==> m["priority"] == JInt(priority.value)
    ensures m.Keys <= {"name", "text", "responsible", "status", "priority"}
  {
    var m: map<string, Json> := map[];
    var m := if Present(name) then m["name" := JString(name.value)] else m;
    var m := if Present(description) then m["text" := JString(description.value)] else m;
    var m := if Present(responsible) then m["responsible" := JString(responsible.value)] else m;
    var m := if Present(status) then m["status" := JString(status.value)] else m;
    if priority.Some? then m["priority" := JInt(priority.value)] else m
  }

  // ---------------------------------------------------------------------
  // The tools object
  // ---------------------------------------------------------------------

  class EvaTools {
    const client: EvaClient

    constructor (client: EvaClient)
      ensures this.client == client
    {
      this.client := client;
    }

    /**
     * The filter list of `search_tasks`, appended one filter at a time;
     * `count_tasks_by_filter` runs it without a query and
     * `search_documents` without responsible and status.
     */
    static method BuildTaskFilters(query: Option<string>, project: Option<string>, responsible: Option<string>,
                                   status: Option<string>)
      returns (filters: seq<Filter>)
      ensures filters == TaskFilters(query, project, responsible, status)
    {
      filters := [];
      if Present(project) {
        filters := filters + [Filter("parent", "=", project.value)];
      }
      assert filters == EqualsIf("parent", project);
      if Present(responsible) {
        filters := filters + [Filter("responsible", "=", responsible.value)];
      }
      assert filters == EqualsIf("parent", project) + EqualsIf("responsible", responsible);
      if Present(status) {
        filters := filters + [Filter("status", "=", status.value)];
      }
      assert filters == EqualsIf("parent", project) + EqualsIf("responsible", responsible) + EqualsIf("status", status);
      if Present(query) {
        filters := filters + [Filter("name", "ilike", "%" + query.value + "%")];
      }
    }

    /** `search_tasks`: the filters are appended one by one, then `list_tasks` is called. */
    method SearchTasks(query: Option<string>, project: Option<string>, responsible: Option<string>,
                       status: Option<string>, limit: int, callId: string, outcome: HttpOutcome)
      returns (o: ToolOutcome)
      modifies client
      ensures o == ListEnvelope("tasks", Exchange(outcome))
      ensures client.posts == old(client.posts) + [PostOf(client.apiUrl, "CmfTask.list",
                TaskPageParams(FilterArgument(TaskFilters(query, project, responsible, status)),
                               limit, DefaultOffset, None, None, false), callId)]
    {
      var filters := BuildTaskFilters(query, project, responsible, status);
      var r := client.ListTasks(FilterArgument(filters), limit, DefaultOffset, None, None, false, callId, outcome);
      o := ListEnvelope("tasks", r);
    }

    /** `get_task_details`. */
    method GetTaskDetails(taskCode: string, callId: string, outcome: HttpOutcome) returns (j: Json)
      modifies client
      ensures j == DetailEnvelope("task", Exchange(outcome))
      ensures client.posts == old(client.posts) + [PostOf(client.apiUrl, "CmfTask.get", map["code" := JString(taskCode)], callId)]
    {
      var r := client.GetTask(taskCode, callId, outcome);
      j := DetailEnvelope("task", r);
    }

    /** `count_tasks_by_filter`: the same filters as `search_tasks` without the query, echoed back. */
    method CountTasksByFilter(project: Option<string>, responsible: Option<string>, status: Option<string>,
                              callId: string, outcome: HttpOutcome) returns (j: Json)
      modifies client
      ensures j == CountEnvelope(Exchange(outcome), TaskFilters(None, project, responsible, status))
      ensures client.posts == old(client.posts) + [PostOf(client.apiUrl, "CmfTask.count",
                CountParams(FilterArgument(TaskFilters(None, project, responsible, status))), callId)]
    {
      var filters := BuildTaskFilters(None, project, responsible, status);
      var r := client.CountTasks(FilterArgument(filters), callId, outcome);
      j := CountEnvelope(r, filters);
    }

    /** `create_task`: a write; the description and the priority travel only when given. */
    method CreateTask(name: string, projectCode: Option<string>, lists: Option<seq<string>>,
                      description: Option<string>, responsible: Option<string>, priority: Option<int>,
                      callId: string, outcome: HttpOutcome) returns (j: Json)
      modifies client
      ensures j == WriteEnvelope("task", "Task created successfully",
                                 CallResult(client.readOnly, "CmfTask.create", outcome))
      ensures client.readOnly ==> client.posts == old(client.posts)
      ensures !client.readOnly ==> client.posts == old(client.posts) + [PostOf(client.apiUrl, "CmfTask.create",
                CreateTaskToolParams(name, projectCode, lists, description, responsible, priority), callId)]
    {
      var text: Option<string> := None;
      var extra: map<string, Json> := map[];
      if Present(description) {
        text := description;
      }
      if priority.Some? {
        extra := extra["priority" := JInt(priority.value)];
      }
      WriteMethodsBlocked();
      var r := client.CreateTask(name, projectCode, lists, text, responsible, extra, callId, outcome);
      j := WriteEnvelope("task", "Task created successfully", r);
    }

    /** The keyword dict of the `update_task` tool, filled in step by step. */
    static method BuildUpdateKwargs(name: Option<string>, description: Option<string>, responsible: Option<string>,
                                    status: Option<string>, priority: Option<int>)
      returns (kwargs: map<string, Json>)
      ensures kwargs == UpdateTaskKwargs(name, description, responsible, status, priority)
    {
      kwargs := map[];
      if Present(name) {
        kwargs := kwargs["name" := JString(name.value)];
      }
      if Present(description) {
        kwargs := kwargs["text" := JString(description.value)];
      }
      if Present(responsible) {
        kwargs := kwargs["responsible" := JString(responsible.value)];
      }
      if Present(status) {
        kwargs := kwargs["status" := JString(status.value)];
      }
      if priority.Some? {
        kwargs := kwargs["priority" := JInt(priority.value)];
      }
    }

    /** `update_task`: a write with the sparse keyword dict. */
    method UpdateTask(taskCode: string, name: Option<string>, description: Option<string>, responsible: Option<string>,
                      status: Option<string>, priority: Option<int>, callId: string, outcome: HttpOutcome)
      returns (j: Json)
      modifies client
      ensures j == WriteEnvelope("task", "Task updated successfully",
                                 CallResult(client.readOnly, "CmfTask.update", outcome))
      ensures client.readOnly ==> client.posts == old(client.posts)
      ensures !client.readOnly ==> client.posts == old(client.posts) + [PostOf(client.apiUrl, "CmfTask.update",
                map["code" := JString(taskCode)] + UpdateTaskKwargs(name, description, responsible, status, priority), callId)]
    {
      var kwargs := BuildUpdateKwargs(name, description, responsible, status, priority);
      WriteMethodsBlocked();
      var r := client.UpdateTask(taskCode, kwargs, callId, outcome);
      j := WriteEnvelope("task", "Task updated successfully", r);
    }

    /** `list_projects`. */
    method ListProjects(limit: int, callId: string, outcome: HttpOutcome) returns (o: ToolOutcome)
      modifies client
      ensures o == ListEnvelope("projects", Exchange(outcome))
      ensures client.posts == old(client.posts) + [PostOf(client.apiUrl, "CmfProject.list",
                PageParams(None, limit, DefaultOffset, None), callId)]
    {
      var r := client.ListProjects(None, limit, DefaultOffset, None, callId, outcome);
      o := ListEnvelope("projects", r);
    }

    /** `get_project_details`. */
    method GetProjectDetails(projectCode: string, callId: string, outcome: HttpOutcome) returns (j: Json)
      modifies client
      ensures j == DetailEnvelope("project", Exchange(outcome))
      ensures client.posts == old(client.posts) + [PostOf(client.apiUrl, "CmfProject.get", map["code" := JString(projectCode)], callId)]
    {
      var r := client.GetProject(projectCode, callId, outcome);
      j := DetailEnvelope("project", r);
    }

    /** `list_users`. */
    method ListUsers(limit: int, callId: string, outcome: HttpOutcome) returns (o: ToolOutcome)
      modifies client
      ensures o == ListEnvelope("users", Exchange(outcome))
      ensures client.posts == old(client.posts) + [PostOf(client.apiUrl, "CmfPerson.list",
                PageParams(None, limit, DefaultOffset, None), callId)]
    {
      var r := client.ListUsers(None, limit, DefaultOffset, None, callId, outcome);
      o := ListEnvelope("users", r);
    }

    /** `get_user_details`. */
    method GetUserDetails(userCode: string, callId: string, outcome: HttpOutcome) returns (j: Json)
      modifies client
      ensures j == DetailEnvelope("user", Exchange(outcome))
      ensures client.posts == old(client.posts) + [PostOf(client.apiUrl, "CmfPerson.get", map["code" := JString(userCode)], callId)]
    {
      var r := client.GetUser(userCode, callId, outcome);
      j := DetailEnvelope("user", r);
    }

    /** `search_documents`: parent then name filters, each only when given. */
    method SearchDocuments(query: Option<string>, project: Option<string>, limit: int, callId: string, outcome: HttpOutcome)
      returns (o: ToolOutcome)
      modifies client
      ensures o == ListEnvelope("documents", Exchange(outcome))
      ensures client.posts == old(client.posts) + [PostOf(client.apiUrl, "CmfDocument.list",
                PageParams(FilterArgument(TaskFilters(query, project, None, None)), limit, DefaultOffset, None), callId)]
    {
      var filters := BuildTaskFilters(query, project, None, None);
      var r := client.ListDocuments(FilterArgument(filters), limit, DefaultOffset, None, callId, outcome);
      o := ListEnvelope("documents", r);
    }

    /** `get_document_details`. */
    method GetDocumentDetails(documentCode: string, callId: string, outcome: HttpOutcome) returns (j: Json)
      modifies client
      ensures j == DetailEnvelope("document", Exchange(outcome))
      ensures client.posts == old(client.posts) + [PostOf(client.apiUrl, "CmfDocument.get", map["code" := JString(documentCode)], callId)]
    {
      var r := client.GetDocument(documentCode, callId, outcome);
      j := DetailEnvelope("document", r);
    }

    /** `get_comments`: always filtered on the parent code. */
    method GetComments(parentCode: string, limit: int, callId: string, outcome: HttpOutcome) returns (o: ToolOutcome)
      modifies client
      ensures o == ListEnvelope("comments", Exchange(outcome))
      ensures client.posts == old(client.posts) + [PostOf(client.apiUrl, "CmfComment.list",
                PageParams(Some([FilterJson(Filter("parent", "=", parentCode))]), limit, DefaultOffset, None), callId)]
    {
      var r := client.ListComments(Some([FilterJson(Filter("parent", "=", parentCode))]), limit, DefaultOffset, None, callId, outcome);
      o := ListEnvelope("comments", r);
    }

    /** `add_comment`: a write. */
    method AddComment(parentCode: string, text: string, callId: string, outcome: HttpOutcome) returns (j: Json)
      modifies client
      ensures j == WriteEnvelope("comment", "Comment added successfully",
                                 CallResult(client.readOnly, "CmfComment.create", outcome))
      ensures client.readOnly ==> client.posts == old(client.posts)
      ensures !client.readOnly ==> client.posts == old(client.posts) + [PostOf(client.apiUrl, "CmfComment.create",
                map["parent" := JString(parentCode), "text" := JString(text)], callId)]
    {
      WriteMethodsBlocked();
      var r := client.CreateComment(parentCode, text, map[], callId, outcome);
      assert map["parent" := JString(parentCode), "text" := JString(text)] + map[]
          == map["parent" := JString(parentCode), "text" := JString(text)];
      j := WriteEnvelope("comment", "Comment added successfully", r);
    }

    /** `list_sprints`. */
    method ListSprints(limit: int, callId: string, outcome: HttpOutcome) returns (o: ToolOutcome)
      modifies client
      ensures o == ListEnvelope("lists", Exchange(outcome))
      ensures client.posts == old(client.posts) + [PostOf(client.apiUrl, "CmfList.list",
                PageParams(None, limit, DefaultOffset, None), callId)]
    {
      var r := client.ListLists(None, limit, DefaultOffset, None, callId, outcome);
      o := ListEnvelope("lists", r);
    }

    /** `get_sprint_details`. */
    method GetSprintDetails(listCode: string, callId: string, outcome: HttpOutcome) returns (j: Json)
      modifies client
      ensures j == DetailEnvelope("list", Exchange(outcome))
      ensures client.posts == old(client.posts) + [PostOf(client.apiUrl, "CmfList.get", map["code" := JString(listCode)], callId)]
    {
      var r := client.GetList(listCode, callId, outcome);
      j := DetailEnvelope("list", r);
    }

    /** `get_audit_log`: filtered on `object_code` only when an entity is given. */
    method GetAuditLog(entityCode: Option<string>, limit: int, callId: string, outcome: HttpOutcome) returns (o: ToolOutcome)
      modifies client
      ensures o == ListEnvelope("audit_log", Exchange(outcome))
      ensures client.posts == old(client.posts) + [PostOf(client.apiUrl, "CmfAudit.list",
                PageParams(FilterArgument(EqualsIf("object_code", entityCode)), limit, DefaultOffset, None), callId)]
    {
      var filters: seq<Filter> := [];
      if Present(entityCode) {
        filters := filters + [Filter("object_code", "=", entityCode.value)];
      }
      assert filters == EqualsIf("object_code", entityCode);
      var r := client.ListAudit(FilterArgument(filters), limit, DefaultOffset, None, callId, outcome);
      o := ListEnvelope("audit_log", r);
    }
  }
}
