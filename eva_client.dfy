/**
 * `EvaClient` (src/eva_client.py): the settings fixed at construction, the
 * `call` entry point, and one method per backend operation that fills a
 * keyword-parameter dict and hands it to `call`.
 *
 * The HTTP layer is seen from the client as the ghost log `posts` of the
 * requests it sends; the response each request gets is an input
 * (`HttpOutcome`), and so is the fresh call identifier.
 */
module Client {
  import opened Wrappers
  import opened PyJson
  import opened PyText
  import opened EvaRpc

  /** One POST: the URL (the method name travels in the `m` query parameter) and the JSON-RPC body. */
  datatype Post = Post(url: string, request: RpcRequest)

  /** `f"{api_url}/?m={method}"`. */
  function MethodUrl(apiUrl: string, name: string): string {
    apiUrl + "/?m=" + name
  }

  /** The POST that `call(name, **kwargs)` sends. */
  function PostOf(apiUrl: string, name: string, kwargs: map<string, Json>, callId: string): Post {
    Post(MethodUrl(apiUrl, name), BuildRequest(name, Some(kwargs), callId))
  }

  /** The text of the `ValueError` raised for a missing token. */
  const TokenRequired: string := "API token is required. Set EVA_API_TOKEN environment variable."

  // ---------------------------------------------------------------------
  // Truthiness of optional arguments and the parameter dicts
  // ---------------------------------------------------------------------

  /** `if xs:` for an optional list: given and non-empty. */
  predicate Given<T>(xs: Option<seq<T>>) {
    xs.Some? && |xs.value| > 0
  }

  /** `if s:` for an optional string: given and non-empty. */
  predicate Present(s: Option<string>) {
    s.Some? && s.value != ""
  }

  /** A list of strings as a JSON array. */
  function Strings(ss: seq<string>): (j: Json)
    ensures j.JArray? && |j.items| == |ss|
    ensures forall k :: 0 <= k < |ss| ==> j.items[k] == JString(ss[k])
  {
    JArray(seq(|ss|, k requires 0 <= k < |ss| => JString(ss[k])))
  }

  /** The `slice` parameter: the half-open window `[offset, offset + limit]`. */
  function Slice(offset: int, limit: int): Json {
    JArray([JInt(offset), JInt(offset + limit)])
  }

  /** The default `offset` of the `list_*` signatures, which the tools rely on. */
  const DefaultOffset: int := 0

  /**
   * The parameters of a `list_*` call other than `list_tasks`: always the
   * slice, and `filter` and `fields` exactly when those arguments are
   * non-empty, carrying them unchanged.
   */
  function PageParams(filters: Option<seq<Json>>, limit: int, offset: int, fields: Option<seq<string>>): (p: map<string, Json>)
    ensures "slice" in p && p["slice"] == JArray([JInt(offset), JInt(offset + limit)])
    ensures "filter" in p <==> Given(filters)
    ensures "filter" in p ==> p["filter"] == JArray(filters.value)
    ensures "fields" in p <==> Given(fields)
    ensures "fields" in p ==> p["fields"] == Strings(fields.value)
    ensures p.Keys <= {"slice", "filter", "fields"}
  {
    var p := map["slice" := Slice(offset, limit)];
    var p := if Given(filters) then p["filter" := JArray(filters.value)] else p;
    if Given(fields) then p["fields" := Strings(fields.value)] else p
  }

  /**
   * The parameters of `list_tasks`: the slice and `include_archived`
   * always; `filter`, `fields` and `order_by` exactly when those arguments
   * are non-empty, carrying them unchanged.
   */
  function TaskPageParams(filters: Option<seq<Json>>, limit: int, offset: int, fields: Option<seq<string>>,
                          orderBy: Option<seq<string>>, includeArchived: bool): (p: map<string, Json>)
    ensures "slice" in p && p["slice"] == JArray([JInt(offset), JInt(offset + limit)])
    ensures "include_archived" in p && p["include_archived"] == JBool(includeArchived)
    ensures "filter" in p <==> Given(filters)
    ensures "filter" in p ==> p["filter"] == JArray(filters.value)
    ensures "fields" in p <==> Given(fields)
    ensures "fields" in p ==> p["fields"] == Strings(fields.value)
    ensures "order_by" in p <==> Given(orderBy)
    ensures "order_by" in p ==> p["order_by"] == Strings(orderBy.value)
    ensures p.Keys <= {"slice", "include_archived", "filter", "fields", "order_by"}
  {
    var p := map["slice" := Slice(offset, limit), "include_archived" := JBool(includeArchived)];
    var p := if Given(filters) then p["filter" := JArray(filters.value)] else p;
    var p := if Given(fields) then p["fields" := Strings(fields.value)] else p;
    if Given(orderBy) then p["order_by" := Strings(orderBy.value)] else p
  }

  /** The parameters of a `count_*` call: `filter` when the filters are non-empty, nothing else. */
  function CountParams(filters: Option<seq<Json>>): (p: map<string, Json>)
    ensures "filter" in p <==> Given(filters)
    ensures p.Keys <= {"filter"}
    ensures "filter" in p ==> p["filter"] == JArray(filters.value)
  {
    if Given(filters) then map["filter" := JArray(filters.value)] else map[]
  }

  /** The named parameters of `create_task`; its `**kwargs` never holds these keys. */
  const CreateTaskNames: set<string> := {"name", "parent", "lists", "text", "responsible"}

  /**
   * The parameters of `create_task`: `name` always; `parent`, `lists`,
   * `text` and `responsible` exactly when given and non-empty; and every
   * extra keyword argument unchanged.
   */
  function CreateTaskParams(name: string, parent: Option<string>, lists: Option<seq<string>>, text: Option<string>,
                            responsible: Option<string>, extra: map<string, Json>): (p: map<string, Json>)
    requires extra.Keys !! CreateTaskNames
    ensures "name" in p && p["name"] == JString(name)
    ensures "parent" in p <==> Present(parent)
    ensures "parent" in p ==> p["parent"] == JString(parent.value)
    ensures "lists" in p <==> Given(lists)
    ensures "lists" in p ==> p["lists"] == Strings(lists.value)
    ensures "text" in p <==> Present(text)
    ensures "text" in p ==> p["text"] == JString(text.value)
    ensures "responsible" in p <==> Present(responsible)
    ensures "responsible" in p ==> p["responsible"] == JString(responsible.value)
    ensures forall k :: k in extra ==> k in p && p[k] == extra[k]
    ensures forall k :: k in p ==> k in CreateTaskNames || k in extra
  {
    var p := map["name" := JString(name)];
    var p := if Present(parent) then p["parent" := JString(parent.value)] else p;
    var p := if Given(lists) then p["lists" := Strings(lists.value)] else p;
    var p := if Present(text) then p["text" := JString(text.value)] else p;
    var p := if Present(responsible) then p["responsible" := JString(responsible.value)] else p;
    p + extra
  }

  /** `create_task` with no optional argument and no extra sends just the name. */
  lemma CreateTaskMinimal(name: string)
    ensures CreateTaskParams(name, None, None, None, None, map[]) == map["name" := JString(name)]
  {
    var p := CreateTaskParams(name, None, None, None, None, map[]);
    assert p.Keys == {"name"};
  }

  /** `count_*` without filters sends an empty parameter dict. */
  lemma CountWithoutFilters(filters: Option<seq<Json>>)
    requires filters == None || filters == Some([])
    ensures CountParams(filters) == map[]
  {
  }

  // ---------------------------------------------------------------------
  // The client object
  // ---------------------------------------------------------------------

  class EvaClient {
    const apiUrl: string
    const apiToken: string
    const readOnly: bool
    const timeout: int

    /** Every POST sent so far, oldest first. */
    ghost var posts: seq<Post>

    /** `__init__` once the token check has passed; nothing is sent yet. */
    constructor (apiUrl: string, apiToken: string, readOnly: bool, timeout: int)
      requires apiToken != ""
      ensures this.apiUrl == apiUrl && this.apiToken == apiToken
      ensures this.readOnly == readOnly && this.timeout == timeout
      ensures posts == []
    {
      this.apiUrl := apiUrl;
      this.apiToken := apiToken;
      this.readOnly := readOnly;
      this.timeout := timeout;
      posts := [];
    }

    /**
     * `EvaClient(...)`: an empty token is refused with the `ValueError`
     * text, and then no client (and no HTTP session) exists.
     */
    static method Open(apiUrl: string, apiToken: string, readOnly: bool, timeout: int)
      returns (r: Result<EvaClient, string>)
      ensures r.Failure? <==> apiToken == ""
      ensures r.Failure? ==> r.error == TokenRequired
      ensures r.Success? ==> (fresh(r.value) && r.value.posts == []
                              && r.value.apiUrl == apiUrl && r.value.apiToken == apiToken
                              && r.value.readOnly == readOnly && r.value.timeout == timeout)
    {
      if apiToken == "" {
        return Failure(TokenRequired);
      }
      var c := new EvaClient(apiUrl, apiToken, readOnly, timeout);
      return Success(c);
    }

    /**
     * `call(name, **kwargs)`: the guard runs before anything is built or
     * sent, so a refused method leaves the log unchanged; otherwise exactly
     * one POST is logged and its outcome is classified.
     */
    method Call(name: string, kwargs: map<string, Json>, callId: string, outcome: HttpOutcome)
      returns (r: Result<Json, ApiError>)
      modifies this
      ensures r == CallResult(readOnly, name, outcome)
      ensures CheckWriteOperation(readOnly, name).Some? ==> posts == old(posts)
      ensures CheckWriteOperation(readOnly, name).None? ==> posts == old(posts) + [PostOf(apiUrl, name, kwargs, callId)]
    {
      var refusal := CheckWriteOperation(readOnly, name);
      if refusal.Some? {
        return Failure(refusal.value);
      }
      var request := BuildRequest(name, Some(kwargs), callId);
      posts := posts + [Post(MethodUrl(apiUrl, name), request)];
      r := Exchange(outcome);
    }

    /** The parameters every `list_*` but `list_tasks` builds, filled in step by step. */
    static method BuildPage(filters: Option<seq<Json>>, limit: int, offset: int, fields: Option<seq<string>>)
      returns (params: map<string, Json>)
      ensures params == PageParams(filters, limit, offset, fields)
    {
      params := map["slice" := Slice(offset, limit)];
      if Given(filters) {
        params := params["filter" := JArray(filters.value)];
      }
      if Given(fields) {
        params := params["fields" := Strings(fields.value)];
      }
    }

    /** The parameters of a `count_*` call, filled in step by step. */
    static method BuildCount(filters: Option<seq<Json>>) returns (params: map<string, Json>)
      ensures params == CountParams(filters)
    {
      params := map[];
      if Given(filters) {
        params := params["filter" := JArray(filters.value)];
      }
    }

    /** `get_task`: a read, sent whatever the mode. */
    method GetTask(code: string, callId: string, outcome: HttpOutcome) returns (r: Result<Json, ApiError>)
      modifies this
      ensures r == Exchange(outcome)
      ensures posts == old(posts) + [PostOf(apiUrl, "CmfTask.get", map["code" := JString(code)], callId)]
    {
      TaskReadsAllowed();
      r := Call("CmfTask.get", map["code" := JString(code)], callId, outcome);
    }

    /** The parameters of `list_tasks`, filled in step by step. */
    static method BuildTaskPage(filters: Option<seq<Json>>, limit: int, offset: int, fields: Option<seq<string>>,
                                orderBy: Option<seq<string>>, includeArchived: bool)
      returns (params: map<string, Json>)
      ensures params == TaskPageParams(filters, limit, offset, fields, orderBy, includeArchived)
    {
      params := map["slice" := Slice(offset, limit), "include_archived" := JBool(includeArchived)];
      if Given(filters) {
        params := params["filter" := JArray(filters.value)];
      }
      if Given(fields) {
        params := params["fields" := Strings(fields.value)];
      }
      if Given(orderBy) {
        params := params["order_by" := Strings(orderBy.value)];
      }
    }

    /** `list_tasks`: the slice and `include_archived` always, the rest only when non-empty. */
    method ListTasks(filters: Option<seq<Json>>, limit: int, offset: int, fields: Option<seq<string>>,
                     orderBy: Option<seq<string>>, includeArchived: bool, callId: string, outcome: HttpOutcome)
      returns (r: Result<Json, ApiError>)
      modifies this
      ensures r == Exchange(outcome)
      ensures posts == old(posts)
        + [PostOf(apiUrl, "CmfTask.list", TaskPageParams(filters, limit, offset, fields, orderBy, includeArchived), callId)]
    {
      var params := BuildTaskPage(filters, limit, offset, fields, orderBy, includeArchived);
      TaskReadsAllowed();
      r := Call("CmfTask.list", params, callId, outcome);
    }

    /** `count_tasks`. */
    method CountTasks(filters: Option<seq<Json>>, callId: string, outcome: HttpOutcome) returns (r: Result<Json, ApiError>)
      modifies this
      ensures r == Exchange(outcome)
      ensures posts == old(posts) + [PostOf(apiUrl, "CmfTask.count", CountParams(filters), callId)]
    {
      var params := BuildCount(filters);
      TaskReadsAllowed();
      r := Call("CmfTask.count", params, callId, outcome);
    }

    /**
     * `create_task`: refused in read-only mode with a message naming
     * read-only mode and nothing sent; otherwise one POST with the sparse
     * parameters.
     */
    method CreateTask(name: string, parent: Option<string>, lists: Option<seq<string>>, text: Option<string>,
                      responsible: Option<string>, extra: map<string, Json>, callId: string, outcome: HttpOutcome)
      returns (r: Result<Json, ApiError>)
      requires extra.Keys !! CreateTaskNames
      modifies this
      ensures readOnly ==> (r == Failure(ApiError(ReadOnlyMessage("CmfTask.create"), Some(ReadOnlyCode), map[]))
                           && Contains(r.error.message, ReadOnlyPhrase) && posts == old(posts))
      ensures !readOnly ==> (r == Exchange(outcome)
                            && posts == old(posts) + [PostOf(apiUrl, "CmfTask.create", CreateTaskParams(name, parent, lists, text, responsible, extra), callId)])
    {
      var params := map["name" := JString(name)];
      if Present(parent) {
        params := params["parent" := JString(parent.value)];
      }
      if Given(lists) {
        params := params["lists" := Strings(lists.value)];
      }
      if Present(text) {
        params := params["text" := JString(text.value)];
      }
      if Present(responsible) {
        params := params["responsible" := JString(responsible.value)];
      }
      params := params + extra;
      assert params == CreateTaskParams(name, parent, lists, text, responsible, extra);
      WriteMethodsBlocked();
      RefusalMessage("CmfTask.create");
      r := Call("CmfTask.create", params, callId, outcome);
    }

    /** `update_task`: the code plus every extra keyword, a write. */
    method UpdateTask(code: string, extra: map<string, Json>, callId: string, outcome: HttpOutcome)
      returns (r: Result<Json, ApiError>)
      requires "code" !in extra
      modifies this
      ensures readOnly ==> (r == Failure(ApiError(ReadOnlyMessage("CmfTask.update"), Some(ReadOnlyCode), map[]))
                           && posts == old(posts))
      ensures !readOnly ==> (r == Exchange(outcome)
                            && posts == old(posts) + [PostOf(apiUrl, "CmfTask.update", map["code" := JString(code)] + extra, callId)])
    {
      WriteMethodsBlocked();
      r := Call("CmfTask.update", map["code" := JString(code)] + extra, callId, outcome);
    }

    /** `get_project`. */
    method GetProject(code: string, callId: string, outcome: HttpOutcome) returns (r: Result<Json, ApiError>)
      modifies this
      ensures r == Exchange(outcome)
      ensures posts == old(posts) + [PostOf(apiUrl, "CmfProject.get", map["code" := JString(code)], callId)]
    {
      ProjectReadsAllowed();
      r := Call("CmfProject.get", map["code" := JString(code)], callId, outcome);
    }

    /** `list_projects`. */
    method ListProjects(filters: Option<seq<Json>>, limit: int, offset: int, fields: Option<seq<string>>,
                        callId: string, outcome: HttpOutcome)
      returns (r: Result<Json, ApiError>)
      modifies this
      ensures r == Exchange(outcome)
      ensures posts == old(posts) + [PostOf(apiUrl, "CmfProject.list", PageParams(filters, limit, offset, fields), callId)]
    {
      var params := BuildPage(filters, limit, offset, fields);
      ProjectReadsAllowed();
      r := Call("CmfProject.list", params, callId, outcome);
    }

    /** `count_projects`. */
    method CountProjects(filters: Option<seq<Json>>, callId: string, outcome: HttpOutcome) returns (r: Result<Json, ApiError>)
      modifies this
      ensures r == Exchange(outcome)
      ensures posts == old(posts) + [PostOf(apiUrl, "CmfProject.count", CountParams(filters), callId)]
    {
      var params := BuildCount(filters);
      ProjectReadsAllowed();
      r := Call("CmfProject.count", params, callId, outcome);
    }

    /** `get_user`. */
    method GetUser(code: string, callId: string, outcome: HttpOutcome) returns (r: Result<Json, ApiError>)
      modifies this
      ensures r == Exchange(outcome)
      ensures posts == old(posts) + [PostOf(apiUrl, "CmfPerson.get", map["code" := JString(code)], callId)]
    {
      PersonReadsAllowed();
      r := Call("CmfPerson.get", map["code" := JString(code)], callId, outcome);
    }

    /** `list_users`. */
    method ListUsers(filters: Option<seq<Json>>, limit: int, offset: int, fields: Option<seq<string>>,
                     callId: string, outcome: HttpOutcome)
      returns (r: Result<Json, ApiError>)
      modifies this
      ensures r == Exchange(outcome)
      ensures posts == old(posts) + [PostOf(apiUrl, "CmfPerson.list", PageParams(filters, limit, offset, fields), callId)]
    {
      var params := BuildPage(filters, limit, offset, fields);
      PersonReadsAllowed();
      r := Call("CmfPerson.list", params, callId, outcome);
    }

    /** `get_document`. */
    method GetDocument(code: string, callId: string, outcome: HttpOutcome) returns (r: Result<Json, ApiError>)
      modifies this
      ensures r == Exchange(outcome)
      ensures posts == old(posts) + [PostOf(apiUrl, "CmfDocument.get", map["code" := JString(code)], callId)]
    {
      DocumentReadsAllowed();
      r := Call("CmfDocument.get", map["code" := JString(code)], callId, outcome);
    }

    /** `list_documents`. */
    method ListDocuments(filters: Option<seq<Json>>, limit: int, offset: int, fields: Option<seq<string>>,
                         callId: string, outcome: HttpOutcome)
      returns (r: Result<Json, ApiError>)
      modifies this
      ensures r == Exchange(outcome)
      ensures posts == old(posts) + [PostOf(apiUrl, "CmfDocument.list", PageParams(filters, limit, offset, fields), callId)]
    {
      var params := BuildPage(filters, limit, offset, fields);
      DocumentReadsAllowed();
      r := Call("CmfDocument.list", params, callId, outcome);
    }

    /** `list_comments`. */
    method ListComments(filters: Option<seq<Json>>, limit: int, offset: int, fields: Option<seq<string>>,
                        callId: string, outcome: HttpOutcome)
      returns (r: Result<Json, ApiError>)
      modifies this
      ensures r == Exchange(outcome)
      ensures posts == old(posts) + [PostOf(apiUrl, "CmfComment.list", PageParams(filters, limit, offset, fields), callId)]
    {
      var params := BuildPage(filters, limit, offset, fields);
      CommentReadsAllowed();
      r := Call("CmfComment.list", params, callId, outcome);
    }

    /** `create_comment`: parent and text plus every extra keyword, a write. */
    method CreateComment(parent: string, text: string, extra: map<string, Json>, callId: string, outcome: HttpOutcome)
      returns (r: Result<Json, ApiError>)
      requires "parent" !in extra && "text" !in extra
      modifies this
      ensures readOnly ==> (r == Failure(ApiError(ReadOnlyMessage("CmfComment.create"), Some(ReadOnlyCode), map[]))
                           && posts == old(posts))
      ensures !readOnly ==> (r == Exchange(outcome)
                            && posts == old(posts)
                                 + [PostOf(apiUrl, "CmfComment.create", map["parent" := JString(parent), "text" := JString(text)] + extra, callId)])
    {
      var params := map["parent" := JString(parent), "text" := JString(text)];
      params := params + extra;
      WriteMethodsBlocked();
      r := Call("CmfComment.create", params, callId, outcome);
    }

    /** `get_list`. */
    method GetList(code: string, callId: string, outcome: HttpOutcome) returns (r: Result<Json, ApiError>)
      modifies this
      ensures r == Exchange(outcome)
      ensures posts == old(posts) + [PostOf(apiUrl, "CmfList.get", map["code" := JString(code)], callId)]
    {
      ListReadsAllowed();
      r := Call("CmfList.get", map["code" := JString(code)], callId, outcome);
    }

    /** `create_list`: name and parent plus every extra keyword, a write. */
    method CreateList(name: string, parent: string, extra: map<string, Json>, callId: string, outcome: HttpOutcome)
      returns (r: Result<Json, ApiError>)
      requires "name" !in extra && "parent" !in extra
      modifies this
      ensures readOnly ==> (r == Failure(ApiError(ReadOnlyMessage("CmfList.create"), Some(ReadOnlyCode), map[]))
                           && posts == old(posts))
      ensures !readOnly ==> (r == Exchange(outcome)
                            && posts == old(posts)
                                 + [PostOf(apiUrl, "CmfList.create", map["name" := JString(name), "parent" := JString(parent)] + extra, callId)])
    {
      var params := map["name" := JString(name), "parent" := JString(parent)];
      params := params + extra;
      WriteMethodsBlocked();
      r := Call("CmfList.create", params, callId, outcome);
    }

    /** `list_lists`. */
    method ListLists(filters: Option<seq<Json>>, limit: int, offset: int, fields: Option<seq<string>>,
                     callId: string, outcome: HttpOutcome)
      returns (r: Result<Json, ApiError>)
      modifies this
      ensures r == Exchange(outcome)
      ensures posts == old(posts) + [PostOf(apiUrl, "CmfList.list", PageParams(filters, limit, offset, fields), callId)]
    {
      var params := BuildPage(filters, limit, offset, fields);
      ListReadsAllowed();
      r := Call("CmfList.list", params, callId, outcome);
    }

    /** `list_audit`. */
    method ListAudit(filters: Option<seq<Json>>, limit: int, offset: int, fields: Option<seq<string>>,
                     callId: string, outcome: HttpOutcome)
      returns (r: Result<Json, ApiError>)
      modifies this
      ensures r == Exchange(outcome)
      ensures posts == old(posts) + [PostOf(apiUrl, "CmfAudit.list", PageParams(filters, limit, offset, fields), callId)]
    {
      var params := BuildPage(filters, limit, offset, fields);
      CommentListAuditReadsAllowed();
      r := Call("CmfAudit.list", params, callId, outcome);
    }
  }
}
