# zilliz-mcp-server: the request/response core in Dafny

This project models the core of zilliz-mcp-server, an MCP server whose tools call
two HTTP JSON APIs of Zilliz Cloud:

- the **control plane** (projects, clusters), at a fixed cloud URI;
- the **data plane** of one cluster (databases, collections), at an endpoint
  derived from a configured template.

Everything between a tool's arguments and the network is modelled as pure
functions returning `Result` values instead of raising:

- `OpenApiClient` covers the shared client:
  - the headers, with their bearer credential;
  - the `raise_for_status`-then-`_parse_response` classification of a reply (an empty body, an undecodable body, a non-zero business `code`);
  - argument validation in its fixed order;
  - the `{CLUSTER_ID}`/`{CLOUD_REGION}` template substitution;
  - case-insensitive GET/POST/DELETE dispatch.
- `ZillizTools` covers `get_projects_info`, `list_clusters` and `create_free_cluster`. Each builds its query or body, reshapes the reply through a camelCase → snake_case renaming table with per-field defaults, and wraps every failure as `Failed to <operation>: <message>`.
- `MilvusTools` covers `list_databases`, `list_collections` and `create_collection`, including the quick-setup body with its defaults and the VarChar `params` rule.
- Supporting modules:
  - `Json`: the decoded value, plus Python's `str()`/`repr()` of it.
  - `PyValue`: Python's `v.get(k, d)` and `for x in v` on such values, including the `AttributeError`/`TypeError` Python raises on the wrong type.
  - `Text`: `strip`, `upper` and `replace`, each with an independent characterisation.
  - `Assoc`: insertion-ordered dicts.
  - `Reshape`: the renaming tables.
  - `Errors`: the error values and their messages.
  - `Results`: `Option`/`Result`.

The network is a parameter: a `Network` is a function from the `Request` a call
would send to the `Exchange` it gets back. That exchange is either a transport
failure or a response carrying a status, the body bytes and the outcome of
decoding them. Every tool therefore comes with a "sends only" lemma. The lemma
says which single request the tool sends, and that its result depends on
nothing but the network's answer to that request.

Facts about the code that a reader might expect otherwise:

- The data-plane URL is `config.cluster_endpoint` with every `{CLUSTER_ID}`
  and then every `{CLOUD_REGION}` substituted
  (src/zilliz_mcp_server/common/openapi_client.py:92). There is no endpoint
  parameter.
- Both builders join with `urljoin` (openapi_client.py:70, 93).
- The unsupported-method message quotes the method as the caller spelled it
  (openapi_client.py:79, 102).
- `list_collections` and `create_collection` send `dbName` even when it is
  empty; `list_databases` sends `{}` (milvus_tools.py:27, 67-69, 126-135).
- `raise_for_status` raises for statuses 400–599 only.

## Model

| member | source | states |
|---|---|---|
| OpenApiClient.Headers | src/zilliz_mcp_server/common/openapi_client.py:8-18 | `accept` and `content-type` are always `application/json`; `Authorization` is `Bearer <token>` exactly when the token is non-empty and absent otherwise; no other header and no key twice |
| OpenApiClient.ParseResponse | src/zilliz_mcp_server/common/openapi_client.py:21-37 | an empty body is `{}` whatever the decoder says; an undecodable non-empty body fails with "Failed to parse response as JSON: " and the decoder's message; a decoded object fails exactly when it has a `code` that is not zero, with "Business error: " and `str(message)` or "Unknown business error"; otherwise the decoded object comes back unchanged |
| OpenApiClient.Receive | src/zilliz_mcp_server/common/openapi_client.py:43-45 | a transport failure is reported as such; a 4xx/5xx status fails with that status; only a non-error status reaches body classification |
| OpenApiClient.StatusCheckedBeforeBody | src/zilliz_mcp_server/common/openapi_client.py:51-53 | two replies with the same error status fail identically whatever their bodies, so `{"code": 0}` with a 500 is still a failure |
| OpenApiClient.ParseMethod | src/zilliz_mcp_server/common/openapi_client.py:72-77 | a method is accepted exactly when it equals GET, POST or DELETE ignoring ASCII case, and it selects the method it spells |
| OpenApiClient.ParsesMethodNames | src/zilliz_mcp_server/common/openapi_client.py:72-77 | the upper-case names select their own methods |
| OpenApiClient.Dispatch | src/zilliz_mcp_server/common/openapi_client.py:72-79 | a request is built exactly for an accepted method, with the given URL, query and headers; only POST carries the body; anything else fails with "Unsupported method: " and the caller's spelling |
| OpenApiClient.ControlPlaneRequest | src/zilliz_mcp_server/common/openapi_client.py:64-79 | a blank uri fails with "uri is required and cannot be empty" before the method is looked at; otherwise an unaccepted method fails with "Unsupported method: " and the caller's spelling, and an accepted one gives a request with the selected method, the uri joined onto the cloud URI, the given query, the client's headers, and the body only for POST |
| OpenApiClient.ControlPlaneApiRequest | src/zilliz_mcp_server/common/openapi_client.py:64-79 | a request-building failure is returned as it stands, whatever the network; once a request is built, the result is the status check and then the body classification of the network's answer to it (transport error, 4xx/5xx, `{}` for an empty body, parse error, business error, or the parsed value); success means a non-error status |
| OpenApiClient.ControlPlaneSendsOnly | src/zilliz_mcp_server/common/openapi_client.py:70-79 | the result depends on the network only through its answer to the one request built |
| OpenApiClient.ControlPlaneValidatesFirst | src/zilliz_mcp_server/common/openapi_client.py:67-68 | a blank uri fails the same way whatever the network, method or body |
| OpenApiClient.ClusterEndpointSubstitutes | src/zilliz_mcp_server/common/openapi_client.py:92 | the endpoint is the template split at every `{CLUSTER_ID}` and glued with the cluster id, then split at every `{CLOUD_REGION}` and glued with the region id; no piece keeps a placeholder; a template with neither placeholder is unchanged |
| OpenApiClient.DataPlaneRequest | src/zilliz_mcp_server/common/openapi_client.py:82-102 | uri, then cluster_id, then region_id: the first blank one decides the error; with all three present, an unaccepted method fails with "Unsupported method: " and the caller's spelling; an accepted one gives a request with the selected method, the uri joined onto the substituted endpoint, the given query, the client's headers, and the body only for POST |
| OpenApiClient.DataPlaneApiRequest | src/zilliz_mcp_server/common/openapi_client.py:82-102 | validation failures are returned as they stand, whatever the network; once a request is built, the result is the status check and then the body classification of the network's answer to it; success means a non-error status |
| OpenApiClient.DataPlaneSendsOnly | src/zilliz_mcp_server/common/openapi_client.py:93-102 | the result depends on the network only through its answer to the one request built |
| OpenApiClient.DataPlanePost | src/zilliz_mcp_server/common/openapi_client.py:92-98 | with all three arguments present, a POST sends the given query and body to the uri joined onto the substituted endpoint |
| OpenApiClient.DataPlaneRejectsBlank | src/zilliz_mcp_server/common/openapi_client.py:85-90 | with any argument blank, the call fails with the message of the first blank one in the order uri, cluster_id, region_id |
| OpenApiClient.DataPlaneValidationOrder | src/zilliz_mcp_server/common/openapi_client.py:85-90 | once an argument is blank, the arguments after it make no difference |
| OpenApiClient.BodyOnlyForPost | src/zilliz_mcp_server/common/openapi_client.py:72-79 | for GET and DELETE the body argument makes no difference; a POST sends exactly the body given |
| OpenApiClient.DataPlaneBodyOnlyForPost | src/zilliz_mcp_server/common/openapi_client.py:95-102 | on the data plane too, only POST is affected by the body, and with all three arguments present it sends exactly the body given to the substituted endpoint |
| Text.BlankIsStripTest | src/zilliz_mcp_server/common/openapi_client.py:67 | `not s or not s.strip()` holds exactly when `s` is whitespace only |
| Text.TrimStart | src/zilliz_mcp_server/common/openapi_client.py:67 | `lstrip` removes a whitespace-only prefix and leaves a suffix that is empty or starts with a non-space |
| Text.TrimEnd | src/zilliz_mcp_server/common/openapi_client.py:67 | `rstrip` removes a whitespace-only suffix and leaves a prefix that is empty or ends with a non-space |
| Text.UpperEqIffEqualIgnoringCase | src/zilliz_mcp_server/common/openapi_client.py:72 | two strings upper-case to the same string exactly when they agree character by character up to ASCII case |
| Text.SplitJoinRoundTrip | src/zilliz_mcp_server/common/openapi_client.py:92 | cutting at every occurrence of a pattern and gluing back with that pattern gives the original string |
| Text.ReplaceIsJoinOfSplit | src/zilliz_mcp_server/common/openapi_client.py:92 | `replace(p, r)` is the string cut at every `p`, glued with `r` |
| Text.SplitPiecesFree | src/zilliz_mcp_server/common/openapi_client.py:92 | no piece of the cut contains the pattern |
| Text.ReplaceAbsent | src/zilliz_mcp_server/common/openapi_client.py:92 | replacing a pattern that does not occur leaves the string unchanged |
| Json.DecimalRoundTrip | src/zilliz_mcp_server/common/openapi_client.py:35 | the decimal text `str()` gives for a number reads back as that number |
| PyValue.Get | src/zilliz_mcp_server/tools/zilliz/zilliz_tools.py:14 | `v.get(k, d)` succeeds exactly on a dict; it gives the default for a missing key and the stored value for a present one; otherwise it fails with "'<type>' object has no attribute 'get'" |
| PyValue.Iterate | src/zilliz_mcp_server/tools/zilliz/zilliz_tools.py:18 | `for x in v` visits a list's items, a dict's keys in order, or a string's characters one by one, each key and character as a string; anything else fails with "'<type>' object is not iterable" |
| Errors.Wrap | src/zilliz_mcp_server/tools/zilliz/zilliz_tools.py:29-30 | success passes through unchanged; a failure becomes a tool failure naming the operation and keeping the original error |
| Errors.WrappedMessage | src/zilliz_mcp_server/tools/zilliz/zilliz_tools.py:29-30 | a wrapped failure reads "Failed to <operation>: " followed by the original message |
| Reshape.FormatRecord | src/zilliz_mcp_server/tools/zilliz/zilliz_tools.py:19-24 | a dict is reshaped to exactly the table's keys, in order; anything else fails with the `get` error |
| Reshape.FormatRecordRenames | src/zilliz_mcp_server/tools/zilliz/zilliz_tools.py:19-24 | each written key holds the source's value under the renamed key, copied verbatim, or the rule's default when absent |
| Reshape.FormatEach | src/zilliz_mcp_server/tools/zilliz/zilliz_tools.py:17-25 | the list is reshaped element by element, in order and with one record per element, exactly when every element is a dict; otherwise it fails at the first non-dict |
| ZillizTools.TablesHaveDistinctTargets | src/zilliz_mcp_server/tools/zilliz/zilliz_tools.py:51-64 | the project, cluster and free-cluster tables never write a key twice |
| ZillizTools.ProjectsFromReply | src/zilliz_mcp_server/tools/zilliz/zilliz_tools.py:14-27 | every record has the four project keys; a reply without `data` gives no records; whatever `data` iterates to (a list's items, a dict's keys, a string's characters) is reshaped element by element, so the first non-dict fails on `get` and an empty one gives `[]`; a non-iterable `data` fails with the iteration error; a non-dict reply fails on `get` |
| ZillizTools.ProjectsFromReplyRenames | src/zilliz_mcp_server/tools/zilliz/zilliz_tools.py:18-25 | a `data` list of dicts gives one renamed record per project, in order, with "Unknown"/0 defaults |
| ZillizTools.GetProjectsInfo | src/zilliz_mcp_server/tools/zilliz/zilliz_tools.py:8-30 | client failures and reshaping failures alike become "Failed to get projects info: ..." with the original error; otherwise the reshaped records |
| ZillizTools.ProjectsInfoSendsOnly | src/zilliz_mcp_server/tools/zilliz/zilliz_tools.py:13 | one GET to `/v2/projects` with no query and no body, and nothing else matters |
| ZillizTools.ClustersFromReply | src/zilliz_mcp_server/tools/zilliz/zilliz_tools.py:45-65 | every record has the twelve cluster keys; a missing `data` or `data.clusters` gives no records; whatever a present `data.clusters` iterates to is reshaped element by element, so the first non-dict fails on `get`, and a non-iterable one fails with the iteration error; a `data` that is not a dict, or a non-dict reply, fails on `get` |
| ZillizTools.ClustersFromReplyRenames | src/zilliz_mcp_server/tools/zilliz/zilliz_tools.py:50-65 | a `data.clusters` list of dicts gives one renamed record per cluster, in order, with "Unknown"/""/0 defaults |
| ZillizTools.ListClusters | src/zilliz_mcp_server/tools/zilliz/zilliz_tools.py:33-70 | client failures and reshaping failures alike become "Failed to list clusters: ..." with the original error; otherwise the reshaped records |
| ZillizTools.ListClustersSendsOnly | src/zilliz_mcp_server/tools/zilliz/zilliz_tools.py:33-44 | one GET to `/v2/clusters` whose query is exactly `pageSize` and `currentPage`, 10 and 1 unless given |
| ZillizTools.FreeClusterFromReply | src/zilliz_mcp_server/tools/zilliz/zilliz_tools.py:95-100 | the summary has exactly `cluster_id`, `username`, `prompt`; a `data` that is not a dict, or a non-dict reply, fails on `get` |
| ZillizTools.FreeClusterWithoutData | src/zilliz_mcp_server/tools/zilliz/zilliz_tools.py:95-100 | a reply without `data` gives "Unknown" for all three keys |
| ZillizTools.FreeClusterFromReplyRenames | src/zilliz_mcp_server/tools/zilliz/zilliz_tools.py:96-100 | a `data` dict is renamed to the three keys, each copied verbatim or "Unknown" |
| ZillizTools.CreateFreeCluster | src/zilliz_mcp_server/tools/zilliz/zilliz_tools.py:73-105 | client failures and reshaping failures alike become "Failed to create free cluster: ..." with the original error; otherwise the three-key summary |
| ZillizTools.CreateFreeClusterSendsOnly | src/zilliz_mcp_server/tools/zilliz/zilliz_tools.py:79-92 | one POST to `/v2/clusters/createFree` whose body is exactly the name, the project and the configured free-cluster region |
| MilvusTools.ListDatabases | src/zilliz_mcp_server/tools/milvus/milvus_tools.py:25-43 | client failures become "Failed to list databases: ..."; a dict reply gives its `data`, or `[]` when absent; a non-dict reply fails with the wrapped `get` error |
| MilvusTools.ListDatabasesSendsOnly | src/zilliz_mcp_server/tools/milvus/milvus_tools.py:27-35 | with both ids present, one POST with body `{}` to `/v2/vectordb/databases/list` on the cluster's endpoint |
| MilvusTools.ListDatabasesRejectsBlankIds | src/zilliz_mcp_server/tools/milvus/milvus_tools.py:42-43 | a blank cluster or region id fails before any request, reading "Failed to list databases: " followed by the client's message for the first blank id |
| MilvusTools.ListCollections | src/zilliz_mcp_server/tools/milvus/milvus_tools.py:65-85 | client failures become "Failed to list collections: ..."; a dict reply gives its `data`, or `[]` when absent; a non-dict reply fails with the wrapped `get` error |
| MilvusTools.ListCollectionsSendsOnly | src/zilliz_mcp_server/tools/milvus/milvus_tools.py:47-77 | with both ids present, one POST with body exactly `{"dbName": db_name}` to `/v2/vectordb/collections/list`, `db_name` being "default" unless given |
| MilvusTools.CollectionBodyKeys | src/zilliz_mcp_server/tools/milvus/milvus_tools.py:126-141 | the body's keys are the eight quick-setup keys in order, then `params` exactly for VarChar; no key repeats |
| MilvusTools.CollectionBodyValues | src/zilliz_mcp_server/tools/milvus/milvus_tools.py:126-135 | each quick-setup key holds the caller's value |
| MilvusTools.CollectionBodyParams | src/zilliz_mcp_server/tools/milvus/milvus_tools.py:138-141 | `params` is `{"max_length": 255}` when the id type is "VarChar" and absent otherwise |
| MilvusTools.CollectionBodyDefaults | src/zilliz_mcp_server/tools/milvus/milvus_tools.py:89-100 | the defaults put "default", "L2", "Int64", true, "id" and "vector" in the body, and no `params` |
| MilvusTools.CreateCollection | src/zilliz_mcp_server/tools/milvus/milvus_tools.py:143-154 | client failures become "Failed to create collection: ..."; a successful reply is returned unchanged |
| MilvusTools.CreateCollectionSendsOnly | src/zilliz_mcp_server/tools/milvus/milvus_tools.py:126-149 | with both ids present, one POST of exactly the quick-setup body to `/v2/vectordb/collections/create` |

## Left out

- HTTP I/O: `requests.get/post/delete` are not modelled. The network is a function parameter from the request sent to the exchange received. Transport errors carry their text opaquely.
- `raise_for_status`: only its rule that statuses 400–599 fail is modelled. The text of its message is an opaque field of the response.
- `response.json()`: decoding bytes is a foreign library. Its outcome, a value or an error text, is an input of the response.
- `urljoin` (src/zilliz_mcp_server/common/openapi_client.py:70, 93): reference resolution per section 5.2 of RFC 3986 is standard-library code. The model records the call `UrlJoin(base, reference)` uninterpreted and does not evaluate it. It also treats the call as total. `urljoin` can raise `ValueError("Invalid IPv6 URL")` when the network location has an unbalanced `[` or `]`. A cluster or region id substituted into the template can cause this, e.g. `list_databases("[c1", "r")`. The source then fails with "Failed to list databases: Invalid IPv6 URL" before any request and before the method check. The model, and the data-plane "sends only" lemmas such as `MilvusTools.ListDatabasesSendsOnly`, do not cover that failure.
- Floating-point JSON numbers are not in the model: numbers are integers. The business `code` counts as zero when it is `0` or `false`, so Python's `0.0 == 0` case is not represented.
- OpenApiClient.ParseResponse: for a decoded value that is not an object (a list, a string, a number), the model returns it unchanged. It does not model what Python's `'code' in json_data` and `json_data['code']` would do on it.
- OpenApiClient.ParseMethod: `str.upper` is modelled on ASCII letters only. Python also upper-cases `ſ` to `S` and the ligatures `ﬅ`/`ﬆ` to `ST`, so the source accepts spellings such as `poſt` that the model rejects.
- Text.IsSpace: the whitespace set of `str.strip` is a fixed table of code points, namely Python's `isspace` characters.
- Json.Repr: `repr()` of a string nested in a container is rendered with single quotes and no escaping. Python switches quotes and escapes special characters. This only affects the text of a business error whose `message` is a container.
- Text.ReplaceAll: requires a non-empty pattern. Both patterns used (`{CLUSTER_ID}`, `{CLOUD_REGION}`) are non-empty.
- Json: decoded objects are taken to have distinct keys. `json.loads` keeps the last of repeated keys, while the model's lookups find the first.
- settings.py: loading the environment and `.env` files is not modelled. `Config` carries the four settings the core reads.
- Process plumbing: FastMCP registration, the `async` and decorator wrappers, and CLI parsing are not modelled, because they hold no logic of the core.
- Behaviours the unit tests assert but the code does not contain are not modelled:
  - an `endpoint` parameter;
  - an `X-MCP-TRACE` header;
  - omitting `dbName` when it is empty;
  - a `COSINE` default metric;
  - the functions `list_projects`, `describe_cluster` and `query_cluster_metrics`;
  - validation in settings.
