# Eva MCP server core in Dafny

This project models the part of the Eva MCP server that talks to the
Eva-project backend:

- `EvaClient` (`src/eva_client.py`) is a JSON-RPC client. Before anything is
  sent, it runs a read-only write guard over the method name. It wraps the
  keyword parameters in a `{"jsonrpc": "2.2", method, callid, kwargs}`
  envelope and POSTs it to `<api_url>/?m=<method>`. It turns the HTTP outcome
  into a result or an `EvaAPIError`. It has one helper per backend
  operation; each helper fills a sparse parameter dict.
- `EvaTools` (`src/tools.py`) is the tool adapter. It turns flat tool
  arguments into filter triples and sparse keyword dicts, calls the client,
  and wraps the outcome in a `{success, ...}` or
  `{success: false, error, code}` envelope.

Files:

- `wrappers.dfy`: `Option` and `Result`.
- `py_json.dfy`: decoded JSON values, and Python's `type().__name__`,
  `len()` and `str()` on them.
- `py_text.dfy`: `str.lower()` and the substring test `p in s`. The test is
  defined by index recursion, so it can be evaluated on the literal method
  names. It is proved equal to "occurs at some position".
- `eva_rpc.dfy`: the pure parts of `call`:
  - `EvaAPIError`.
  - The guard.
  - The envelope and its wire dict, with a decoder and a round trip.
  - How the `try` block of `call` and its three `except` clauses classify
    an HTTP outcome.
- `eva_client.dfy`: the parameter dicts as specification functions, and the
  class `EvaClient`. Its methods fill the dicts step by step. A ghost log
  `posts` records every request sent, which gives "no POST before the guard
  passes" a precise meaning. The response to each request and the fresh
  call id are inputs.
- `eva_tools.dfy`: filter lists, envelopes, and the class `EvaTools`. Its
  methods build filter lists by successive appends and keyword dicts by
  conditional inserts.

In several places the code behaves differently from what its interface
suggests. The model follows the code:

- **The backend's error code is lost.** A body with an `error` key raises
  `EvaAPIError` inside the `try` of `call`. The generic `except Exception`
  catches it and raises it again as `"Unexpected error: <message>"` with no
  code. One might expect a structured backend error to keep its code. See
  `BackendErrorRewrapped` and `ApiErrorExample`.
- **A non-2xx response is an HTTP error, even when it carries `error`.**
  `raise_for_status` runs before the body is read. One might expect a body
  with `error` to win regardless of status. See `Non2xxIsHttpError`.
- **Only the guard's refusal carries a code.** Transport errors, HTTP errors
  and backend errors all reach the tools with code `None`. See
  `OnlyRefusalHasCode`.
- **The tools' error envelope always has a `code` key,** which may be null.
  One might expect the key to be absent for transport failures.
- **A tool can raise.** A list tool calls `len()` on what the backend
  returned. For `None`, a number or a boolean, that raises a `TypeError`,
  which is not caught, although a tool is meant never to throw. This is
  `ToolOutcome.Raised`.
- **Extra keyword arguments cannot collide with named ones.** One might
  expect named parameters to win over same-named extras. In Python the
  collision cannot happen, because a keyword with a named parameter's name
  binds to that parameter and never reaches `**kwargs`. The model states
  this as a precondition on the extra map (for example
  `extra.Keys !! CreateTaskNames`). The `create_task` tool relies on it:
  its `"text"` entry becomes the client's `text` argument.

## Model

| member | source | states |
|---|---|---|
| PyText.Lower | src/eva_client.py:101 | definition of `method.lower()` (ASCII folding); its use in the guard is characterised by `PyText.FoldedContains` and `EvaRpc.GuardIgnoresCase` |
| PyText.Contains | src/eva_client.py:101 | definition of `op in s`; proved equal to "occurs at some position" by `PyText.ContainsIff` |
| EvaRpc.IsWriteMethod | src/eva_client.py:99-101 | definition of `any(op in method.lower() for op in write_operations)`; characterised by `EvaRpc.WriteOperationAnywhere`, `EvaRpc.DottedReadName`, `EvaRpc.GuardIgnoresCase` and the per-entity lemmas |
| EvaRpc.CheckWriteOperation | src/eva_client.py:89-106 | definition of `_check_write_operation`; its refusal and pass cases are stated by `EvaRpc.ReadOnlyRefusesWrites`, `EvaRpc.ReadWriteNeverRefuses` and `EvaRpc.RefusalMessage` |
| EvaRpc.BuildRequest | src/eva_client.py:71-87 | definition of `_build_request` with the call id as an input; its wire form is stated by `EvaRpc.BuildRequestWire` and `EvaRpc.DecodeEncode` |
| EvaRpc.InterpretBody | src/eva_client.py:134-146 | definition of what the `try` block does with a 2xx body (the value, or the text of the exception raised inside it); stated by `EvaRpc.ReturnsResultIff`, `EvaRpc.BackendErrorRewrapped` and `EvaRpc.BackendErrorWithoutMessage` |
| EvaRpc.Exchange | src/eva_client.py:128-156 | definition of the `try`/`except` part of `call`; stated by `EvaRpc.Non2xxIsHttpError`, `EvaRpc.NetworkFailureIsRequestError` and `EvaRpc.BackendErrorRewrapped` |
| EvaRpc.CallResult | src/eva_client.py:122-156 | definition of `call`: guard first, then the exchange; stated by `EvaRpc.ReturnsResultIff`, `EvaRpc.RefusalPrecedesTransport` and `EvaRpc.OnlyRefusalHasCode` |
| Tools.TaskFilters | src/tools.py:48-58 | definition of the `search_tasks` filter list; stated by `Tools.TaskFiltersOrdered` and `Tools.TaskFiltersMembers` |
| Tools.CreateTaskToolParams | src/tools.py:176-188 | definition of the parameters the `create_task` tool ends up sending; stated by `Tools.CreateTaskToolSparse` |
| PyText.ContainsIff | src/eva_client.py:101 | Python's `op in s`, computed position by position, holds exactly when `op` occurs as a block of `s` at some position |
| PyText.FoldedContains | src/eva_client.py:101 | testing `op in s.lower()` equals comparing the lower-cased characters of `s` with `op` position by position, so literal names can be evaluated |
| EvaRpc.ReadOnlyRefusesWrites | src/eva_client.py:99-106 | in read-only mode a method whose lower-cased name contains a write substring is refused with the fixed message and code -32001 |
| EvaRpc.ReadWriteNeverRefuses | src/eva_client.py:101 | with `read_only` off the guard lets every method name through |
| EvaRpc.GuardIgnoresCase | src/eva_client.py:101 | two names equal after lower-casing get the same decision |
| EvaRpc.RefusalMessage | src/eva_client.py:102-105 | the refusal's message contains the blocked method's name and the phrase "read-only mode" |
| EvaRpc.WriteOperationAnywhere | src/eva_client.py:99-101 | a write substring in any letter case anywhere in the name blocks it, whatever surrounds it |
| EvaRpc.DottedReadName | src/eva_client.py:99-101 | an `Entity.verb` name whose two parts hold no write substring is never refused |
| EvaRpc.TaskReadsAllowed | src/eva_client.py:159-190 | `CmfTask.get`, `CmfTask.list` and `CmfTask.count` pass the guard in read-only mode |
| EvaRpc.ProjectReadsAllowed | src/eva_client.py:220-244 | `CmfProject.get`, `.list` and `.count` pass the guard in read-only mode |
| EvaRpc.OtherReadsAllowed | src/eva_client.py:247-359 | the person, document, comment, list and audit reads pass the guard in read-only mode |
| EvaRpc.WriteMethodsBlocked | src/eva_client.py:99-101 | `CmfTask.create`, `CmfTask.update`, `CmfComment.create` and `CmfList.create` are refused, and so is the read-looking `get_update_history` |
| EvaRpc.Encode | src/eva_client.py:82-87 | the request body is a dict with exactly the keys `jsonrpc`, `method`, `callid`, `kwargs` |
| EvaRpc.DecodeEncode | src/eva_client.py:82-87 | reading a serialised envelope back gives the same envelope |
| EvaRpc.BuildRequestWire | src/eva_client.py:82-87 | `jsonrpc` is "2.2", the method, call id and parameters are copied verbatim, and absent parameters become `{}` |
| EvaRpc.ReturnsResultIff | src/eva_client.py:122-146 | `call` returns a value exactly when the guard passes and the response is a 2xx dict without `error`; the value is what is under `result`, or `None` when that key is absent |
| EvaRpc.RefusalPrecedesTransport | src/eva_client.py:122-131 | a refused method fails the same way whatever the server would answer |
| EvaRpc.OnlyRefusalHasCode | src/eva_client.py:148-156 | a failed call has a code exactly when the guard refused it, and the code is -32001 |
| EvaRpc.Non2xxIsHttpError | src/eva_client.py:148-150 | any non-2xx status fails as "HTTP error: <status>" with no code and the status error's text under `response`, even if the body has `error` |
| EvaRpc.BackendErrorRewrapped | src/eva_client.py:137-156 | a backend `error` on a 2xx response fails as "Unexpected error: <message>", which still contains the backend message, with no code |
| EvaRpc.BackendErrorWithoutMessage | src/eva_client.py:140 | a backend error without `message` is reported as "Unexpected error: Unknown error" |
| EvaRpc.NetworkFailureIsRequestError | src/eva_client.py:151-153 | a network failure fails as "Request error: <text>" with no code |
| EvaRpc.SuccessfulCallExample | tests/test_eva_client.py:74-85 | `CmfTask.get` answered by `{"result": task}` returns `task`, even in read-only mode |
| EvaRpc.ApiErrorExample | tests/test_eva_client.py:88-102 | a backend "Invalid Request" error makes `CmfTask.get` fail with a message containing "Invalid Request" |
| Client.PageParams | src/eva_client.py:232-237 | a `list_*` call always sends `slice = [offset, offset + limit]`, and sends `filter` and `fields` exactly when they are non-empty, unchanged |
| Client.TaskPageParams | src/eva_client.py:173-183 | `list_tasks` always sends the slice and `include_archived`, and sends `filter`, `fields` and `order_by` exactly when they are non-empty, unchanged; no other key |
| Client.CountParams | src/eva_client.py:187-190 | a `count_*` call sends `filter` exactly when the filters are non-empty, and nothing else |
| Client.CountWithoutFilters | src/eva_client.py:185-190 | a count without filters sends an empty parameter dict |
| Client.CreateTaskParams | src/eva_client.py:202-212 | `create_task` always sends `name`, sends `parent`, `lists`, `text` and `responsible` exactly when they are truthy, and merges every extra keyword unchanged; no other key is sent |
| Client.CreateTaskMinimal | src/eva_client.py:202-213 | with no optional argument `create_task` sends just the name |
| Client.EvaClient.constructor | src/eva_client.py:31-63 | a client built with a non-empty token keeps its settings and has sent nothing |
| Client.EvaClient.Open | src/eva_client.py:53-56 | an empty token is refused with "API token is required. ..." and no client exists; any other token gives a fresh client that has sent nothing |
| Client.EvaClient.Call | src/eva_client.py:108-156 | the result is the guard's refusal or the classified outcome; a refused method sends nothing, any other sends exactly one POST to `<api_url>/?m=<method>` with the envelope |
| Client.EvaClient.BuildPage | src/eva_client.py:232-236 | the dict filled in step by step equals the page parameters |
| Client.EvaClient.BuildCount | src/eva_client.py:187-189 | the dict filled in step by step equals the count parameters |
| Client.EvaClient.GetTask | src/eva_client.py:159-161 | sends `CmfTask.get` with `{code}` in any mode and returns the classified outcome |
| Client.EvaClient.BuildTaskPage | src/eva_client.py:173-182 | the dict filled in step by step equals the `list_tasks` parameters |
| Client.EvaClient.ListTasks | src/eva_client.py:163-183 | sends `CmfTask.list` with the `list_tasks` parameters in any mode and returns the classified outcome |
| Client.EvaClient.CountTasks | src/eva_client.py:185-190 | sends `CmfTask.count` with the count parameters in any mode |
| Client.EvaClient.CreateTask | src/eva_client.py:192-213 | in read-only mode fails with the read-only refusal and sends nothing; otherwise sends `CmfTask.create` with the sparse parameters |
| Client.EvaClient.UpdateTask | src/eva_client.py:215-217 | in read-only mode refused and nothing sent; otherwise sends `CmfTask.update` with `{code}` plus the extras |
| Client.EvaClient.GetProject | src/eva_client.py:220-222 | sends `CmfProject.get` with `{code}` in any mode |
| Client.EvaClient.ListProjects | src/eva_client.py:224-237 | sends `CmfProject.list` with the page parameters in any mode |
| Client.EvaClient.CountProjects | src/eva_client.py:239-244 | sends `CmfProject.count` with the count parameters in any mode |
| Client.EvaClient.GetUser | src/eva_client.py:247-249 | sends `CmfPerson.get` with `{code}` in any mode |
| Client.EvaClient.ListUsers | src/eva_client.py:251-264 | sends `CmfPerson.list` with the page parameters in any mode |
| Client.EvaClient.GetDocument | src/eva_client.py:267-269 | sends `CmfDocument.get` with `{code}` in any mode |
| Client.EvaClient.ListDocuments | src/eva_client.py:271-284 | sends `CmfDocument.list` with the page parameters in any mode |
| Client.EvaClient.ListComments | src/eva_client.py:287-300 | sends `CmfComment.list` with the page parameters in any mode |
| Client.EvaClient.CreateComment | src/eva_client.py:302-314 | in read-only mode refused and nothing sent; otherwise sends `CmfComment.create` with `{parent, text}` plus the extras |
| Client.EvaClient.GetList | src/eva_client.py:317-319 | sends `CmfList.get` with `{code}` in any mode |
| Client.EvaClient.CreateList | src/eva_client.py:321-328 | in read-only mode refused and nothing sent; otherwise sends `CmfList.create` with `{name, parent}` plus the extras |
| Client.EvaClient.ListLists | src/eva_client.py:330-343 | sends `CmfList.list` with the page parameters in any mode |
| Client.EvaClient.ListAudit | src/eva_client.py:346-359 | sends `CmfAudit.list` with the page parameters in any mode |
| Tools.TaskFiltersOrdered | src/tools.py:48-58 | the `search_tasks` filters come in the fixed order parent, responsible, status, name, so no field occurs twice |
| Tools.TaskFiltersMembers | src/tools.py:48-58 | a filter is in the list exactly when its argument is truthy: an equality on project (as `parent`), responsible or status, or `name ilike "%query%"` |
| Tools.AppendRanked | src/tools.py:48-58 | appending at most one filter of a higher rank keeps the list in rank order |
| Tools.FilterArgument | src/tools.py:60-63 | the client receives `None` exactly when no filter was built, and the triples otherwise |
| Tools.FilterArgumentForwarded | src/eva_client.py:177-178 | a non-`None` filter argument is non-empty, so the client always sends it |
| Tools.ErrorEnvelope | src/tools.py:71-76 | the error envelope has exactly `success` (false), `error` and `code`, with `code` always present |
| Tools.ErrorEnvelopeRoundTrip | src/tools.py:71-76 | the error envelope keeps the exception's message and code, with null for no code |
| Tools.ListEnvelope | src/tools.py:65-69 | on success: `success` true, `count` is `len()` of the result (a list's length, a dict's key count, a string's length), the result under its key; on `None`, a number or a boolean: the `len()` `TypeError` escapes with its text; on error: the error envelope |
| Tools.DetailEnvelope | src/tools.py:91-94 | on success the result sits under its key beside `success` true; on error the error envelope |
| Tools.WriteEnvelope | src/tools.py:190-194 | on success the result, `success` true and the fixed confirmation message; on error the error envelope |
| Tools.CountEnvelope | src/tools.py:132-136 | on success the backend's count unchanged and the filter list that was built; on error the error envelope |
| Tools.EnvelopesReportSuccess | src/tools.py:65-76 | every envelope's `success` is true exactly when the call succeeded, and a failed write's envelope reads back as its message and code |
| Tools.SearchTasksExample | tests/test_tools.py:29-41 | `query="test"` yields the single filter `name ilike "%test%"`, and two tasks give `count` 2 |
| Tools.CountTasksExample | tests/test_tools.py:70-78 | `project="PROJECT-1"` yields the single parent filter, and a count of 42 comes back as 42 |
| Tools.SearchTasksErrorExample | tests/test_tools.py:44-52 | an `EvaAPIError("API Error", code=-32600)` becomes `success` false with that message and code |
| Tools.CreateTaskToolSparse | src/tools.py:176-188 | the `create_task` tool sends `text` exactly when the description is non-empty and `priority` exactly when it is not `None`, 0 included |
| Tools.UpdateTaskKwargs | src/tools.py:229-239 | `name`, `text`, `responsible` and `status` exactly when truthy, and `priority` exactly when not `None`, so 0 is sent; no other key |
| Tools.EvaTools.constructor | src/tools.py:15-22 | the tools object wraps the given client |
| Tools.EvaTools.BuildTaskFilters | src/tools.py:48-58 | the list appended one filter at a time equals the `search_tasks` filters |
| Tools.EvaTools.SearchTasks | src/tools.py:26-76 | appends the filters one by one; sends `CmfTask.list` with the filter argument, the limit and the defaults; returns the list envelope under `tasks` |
| Tools.EvaTools.GetTaskDetails | src/tools.py:78-101 | sends `CmfTask.get` and returns the detail envelope under `task` |
| Tools.EvaTools.CountTasksByFilter | src/tools.py:103-143 | sends `CmfTask.count` with the parent/responsible/status filters and echoes those filters with the count |
| Tools.EvaTools.CreateTask | src/tools.py:145-201 | refused without a POST in read-only mode; otherwise sends the sparse create parameters; returns the write envelope |
| Tools.EvaTools.BuildUpdateKwargs | src/tools.py:229-239 | the dict filled in step by step equals the sparse update keywords |
| Tools.EvaTools.UpdateTask | src/tools.py:203-254 | refused without a POST in read-only mode; otherwise sends `{code}` plus the sparse keywords; returns the write envelope |
| Tools.EvaTools.ListProjects | src/tools.py:258-282 | sends `CmfProject.list` with only the limit and returns the list envelope under `projects` |
| Tools.EvaTools.GetProjectDetails | src/tools.py:284-307 | sends `CmfProject.get` and returns the detail envelope under `project` |
| Tools.EvaTools.ListUsers | src/tools.py:311-335 | sends `CmfPerson.list` with only the limit and returns the list envelope under `users` |
| Tools.EvaTools.GetUserDetails | src/tools.py:337-360 | sends `CmfPerson.get` and returns the detail envelope under `user` |
| Tools.EvaTools.SearchDocuments | src/tools.py:364-405 | appends the parent and name filters; sends `CmfDocument.list`; returns the list envelope under `documents` |
| Tools.EvaTools.GetDocumentDetails | src/tools.py:407-430 | sends `CmfDocument.get` and returns the detail envelope under `document` |
| Tools.EvaTools.GetComments | src/tools.py:434-466 | always filters on `["parent", "=", code]`; returns the list envelope under `comments` |
| Tools.EvaTools.AddComment | src/tools.py:468-499 | refused without a POST in read-only mode; otherwise sends `{parent, text}`; returns the write envelope |
| Tools.EvaTools.ListSprints | src/tools.py:503-527 | sends `CmfList.list` with only the limit and returns the list envelope under `lists` |
| Tools.EvaTools.GetSprintDetails | src/tools.py:529-552 | sends `CmfList.get` and returns the detail envelope under `list` |
| Tools.EvaTools.GetAuditLog | src/tools.py:556-592 | filters on `object_code` exactly when an entity code is given; returns the list envelope under `audit_log` |

## Left out

- The HTTP transport is an input, not a model. httpx, the headers, the
  timeout, `follow_redirects=False`, `close` and the context manager are
  left out. The outcome of each POST is an `HttpOutcome`, and the text
  httpx gives its exceptions is part of that input.
- The call id is an input. The source draws a uuid4 for every request, and
  its uniqueness cannot be stated without a model of randomness.
- Settings from the environment and the `.env` file are not modelled. These
  are the defaults for the URL, the token, `read_only` and the timeout. The
  constructor takes the resolved values.
- Logging is left out throughout.
- The `json.dumps` text of the envelopes is left out (indentation,
  `ensure_ascii`, key order). Envelopes are the dicts handed to it.
- Dict key order is not modelled. Python dicts keep insertion order; maps
  do not.
- JSON numbers are integers. Floating-point values in responses are not
  modelled.
- `PyJson.PyStr` renders a list or dict by a stand-in. This only matters for
  a backend error whose `message` is itself a list or dict; Python's
  `repr` text is not reproduced.
- `str.lower()` folds ASCII letters only. This does not change the guard:
  the only non-ASCII characters that lower-case to ASCII give `i` or `k`,
  and neither letter occurs in a write substring.
- The text of a `TypeError` or `AttributeError` raised inside `call` for a
  body that is not a dict follows CPython 3.11 and later.
- `Client.EvaClient.CreateTask` does not model the `TypeError` that Python raises, before the guard runs, when an extra keyword is named `method` or `self` (it reaches `call` through `**params`); such a map is treated as an ordinary parameter map.
- `Client.EvaClient.UpdateTask` does not model the `TypeError` that Python raises, before the guard runs, when an extra keyword is named `method` or `self`; such a map is treated as an ordinary parameter map.
- `Client.EvaClient.CreateComment` does not model the `TypeError` that Python raises, before the guard runs, when an extra keyword is named `method` or `self`; such a map is treated as an ordinary parameter map.
- `Client.EvaClient.CreateList` does not model the `TypeError` that Python raises, before the guard runs, when an extra keyword is named `method` or `self`; such a map is treated as an ordinary parameter map.
- Default argument values of the client and the tools (`limit` 20 or 50, `offset` 0 and the rest) are not modelled as defaults: every argument is passed explicitly. Where a tool relies on a client default, the model passes that default (`Client.DefaultOffset`, no fields, no order, `include_archived` false).
- `src/server.py` (the tool catalog, the dispatch and the stdio loop) is not
  part of this model.
