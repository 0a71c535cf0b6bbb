/** The control-plane tools: list projects, list clusters, create a free
    cluster. Each builds its query or body, calls the control-plane builder,
    renames the response's fields and wraps any failure as
    "Failed to <operation>: <message>". */
module ZillizTools {
  import opened Results
  import opened Assoc
  import opened Json
  import opened Errors
  import opened PyValue
  import opened Reshape
  import opened OpenApiClient

  const ProjectsUri := "/v2/projects"
  const ClustersUri := "/v2/clusters"
  const CreateFreeClusterUri := "/v2/clusters/createFree"

  const Unknown := JStr("Unknown")
  const NoText := JStr("")
  const Zero := JNum(0)

  const ProjectFields: seq<FieldRule> := [
    FieldRule("project_name", "projectName", Unknown),
    FieldRule("project_id", "projectId", Unknown),
    FieldRule("instance_count", "instanceCount", Zero),
    FieldRule("create_time", "createTime", Unknown)
  ]

  const ClusterFields: seq<FieldRule> := [
    FieldRule("cluster_id", "clusterId", Unknown),
    FieldRule("cluster_name", "clusterName", Unknown),
    FieldRule("description", "description", NoText),
    FieldRule("region_id", "regionId", Unknown),
    FieldRule("plan", "plan", Unknown),
    FieldRule("cu_type", "cuType", NoText),
    FieldRule("cu_size", "cuSize", Zero),
    FieldRule("status", "status", Unknown),
    FieldRule("connect_address", "connectAddress", NoText),
    FieldRule("private_link_address", "privateLinkAddress", NoText),
    FieldRule("project_id", "projectId", Unknown),
    FieldRule("create_time", "createTime", Unknown)
  ]

  const FreeClusterFields: seq<FieldRule> := [
    FieldRule("cluster_id", "clusterId", Unknown),
    FieldRule("username", "username", Unknown),
    FieldRule("prompt", "prompt", Unknown)
  ]

  /** No table writes the same key twice. */
  lemma TablesHaveDistinctTargets()
    ensures DistinctTargets(ProjectFields)
    ensures DistinctTargets(ClusterFields)
    ensures DistinctTargets(FreeClusterFields)
  {
  }

  /** Every element of `items` is a dict. */
  predicate AllObjects(items: seq<Json>)
  {
    forall i :: 0 <= i < |items| ==> items[i].JObj?
  }

  // ---------------------------------------------------------------- projects

  /** The request `get_projects_info` sends. */
  function ProjectsRequest(config: Config): Request
  {
    GetRequest(config.token, UrlJoin(config.cloudUri, ProjectsUri), None)
  }

  /** How `get_projects_info` turns the client's reply into project records:
      `data` (an empty list when absent) is iterated and each element renamed. */
  function ProjectsFromReply(reply: Json): (r: Result<seq<Json>, Error>)
    ensures r.Ok? ==> forall x :: x in r.value ==> x.JObj? && Keys(x.members) == Targets(ProjectFields)
    ensures reply.JObj? && "data" !in Keys(reply.members) ==> r == Ok([])
    ensures reply.JObj? && Lookup(reply.members, "data").Some? && Lookup(reply.members, "data").value.JArr? ==>
      r == FormatEach(Lookup(reply.members, "data").value.items, ProjectFields)
    ensures reply.JObj? && Lookup(reply.members, "data").Some? && Iterate(Lookup(reply.members, "data").value).Err? ==>
      r == Err(Iterate(Lookup(reply.members, "data").value).error)
    ensures reply.JObj? && Lookup(reply.members, "data").Some? && Iterate(Lookup(reply.members, "data").value).Ok? ==>
      r == FormatEach(Iterate(Lookup(reply.members, "data").value).value, ProjectFields)
    ensures !reply.JObj? ==> r == Err(NoGet(reply))
  {
    var projects :- Get(reply, "data", JArr([]));
    var items :- Iterate(projects);
    FormatEach(items, ProjectFields)
  }

  /** A `data` list of dicts yields one renamed record per project, in order. */
  lemma ProjectsFromReplyRenames(reply: Json, projects: seq<Json>)
    requires reply.JObj? && Lookup(reply.members, "data") == Some(JArr(projects)) && AllObjects(projects)
    ensures ProjectsFromReply(reply).Ok?
    ensures |ProjectsFromReply(reply).value| == |projects|
    ensures forall i :: 0 <= i < |projects| ==>
              Renamed(ProjectsFromReply(reply).value[i], projects[i].members, ProjectFields)
  {
    var r := ProjectsFromReply(reply);
    TablesHaveDistinctTargets();
    forall i | 0 <= i < |projects|
      ensures Renamed(r.value[i], projects[i].members, ProjectFields)
    {
      FormatRecordRenames(projects[i], ProjectFields);
    }
  }

  /** `get_projects_info()`: the client's failures and the reshaping's failures
      alike are reported as "Failed to get projects info: ...". */
  function GetProjectsInfo(config: Config, net: Network): (r: Result<seq<Json>, Error>)
    ensures r.Err? ==> r.error.Tool? && r.error.operation == "get projects info"
    ensures var reply := ControlPlaneApiRequest(config, net, ProjectsUri, None, None, "GET");
      && (reply.Err? ==> r == Err(Tool("get projects info", reply.error)))
      && (reply.Ok? && ProjectsFromReply(reply.value).Ok? ==> r == ProjectsFromReply(reply.value))
      && (reply.Ok? && ProjectsFromReply(reply.value).Err? ==> r == Err(Tool("get projects info", ProjectsFromReply(reply.value).error)))
  {
    Wrap("get projects info",
      var reply :- ControlPlaneApiRequest(config, net, ProjectsUri, None, None, "GET");
      ProjectsFromReply(reply))
  }

  /** `get_projects_info` sends one GET to the projects path with no query and no
      body, and depends on nothing else the network does. */
  lemma ProjectsInfoSendsOnly(config: Config, net1: Network, net2: Network)
    requires net1(ProjectsRequest(config)) == net2(ProjectsRequest(config))
    ensures ControlPlaneRequest(config, ProjectsUri, None, None, "GET") == Ok(ProjectsRequest(config))
    ensures GetProjectsInfo(config, net1) == GetProjectsInfo(config, net2)
  {
    Text.NotBlankWhenFirstNonSpace(ProjectsUri);
    ControlPlaneSendsOnly(config, net1, net2, ProjectsUri, None, None, "GET");
  }

  // ---------------------------------------------------------------- clusters

  /** `{'pageSize': page_size, 'currentPage': current_page}`. */
  function ClustersQuery(pageSize: int, currentPage: int): Json
  {
    JObj([("pageSize", JNum(pageSize)), ("currentPage", JNum(currentPage))])
  }

  /** The request `list_clusters` sends. */
  function ClustersRequest(config: Config, pageSize: int, currentPage: int): Request
  {
    GetRequest(config.token, UrlJoin(config.cloudUri, ClustersUri), Some(ClustersQuery(pageSize, currentPage)))
  }

  /** How `list_clusters` turns the client's reply into cluster records:
      `data.clusters` (an empty dict, then an empty list, when absent) is iterated
      and each element renamed. */
  function ClustersFromReply(reply: Json): (r: Result<seq<Json>, Error>)
    ensures r.Ok? ==> forall x :: x in r.value ==> x.JObj? && Keys(x.members) == Targets(ClusterFields)
    ensures reply.JObj? && "data" !in Keys(reply.members) ==> r == Ok([])
    ensures (&& reply.JObj? && Lookup(reply.members, "data").Some? && Lookup(reply.members, "data").value.JObj?
             && "clusters" !in Keys(Lookup(reply.members, "data").value.members)) ==> r == Ok([])
    ensures (&& reply.JObj? && Lookup(reply.members, "data").Some? && Lookup(reply.members, "data").value.JObj?
             && Lookup(Lookup(reply.members, "data").value.members, "clusters").Some?
             && Lookup(Lookup(reply.members, "data").value.members, "clusters").value.JArr?) ==>
      r == FormatEach(Lookup(Lookup(reply.members, "data").value.members, "clusters").value.items, ClusterFields)
    ensures reply.JObj? && Lookup(reply.members, "data").Some? && !Lookup(reply.members, "data").value.JObj? ==>
      r == Err(NoGet(Lookup(reply.members, "data").value))
    ensures (&& reply.JObj? && Lookup(reply.members, "data").Some? && Lookup(reply.members, "data").value.JObj?
             && Lookup(Lookup(reply.members, "data").value.members, "clusters").Some?) ==>
      var clusters := Lookup(Lookup(reply.members, "data").value.members, "clusters").value;
      r == (if Iterate(clusters).Err? then Err(Iterate(clusters).error)
            else FormatEach(Iterate(clusters).value, ClusterFields))
    ensures !reply.JObj? ==> r == Err(NoGet(reply))
  {
    var clustersData :- Get(reply, "data", JObj([]));
    var clusters :- Get(clustersData, "clusters", JArr([]));
    var items :- Iterate(clusters);
    FormatEach(items, ClusterFields)
  }

  /** A `data.clusters` list of dicts yields one renamed record per cluster, in order. */
  lemma ClustersFromReplyRenames(reply: Json, data: seq<(string, Json)>, clusters: seq<Json>)
    requires reply.JObj? && Lookup(reply.members, "data") == Some(JObj(data))
    requires Lookup(data, "clusters") == Some(JArr(clusters)) && AllObjects(clusters)
    ensures ClustersFromReply(reply).Ok?
    ensures |ClustersFromReply(reply).value| == |clusters|
    ensures forall i :: 0 <= i < |clusters| ==>
              Renamed(ClustersFromReply(reply).value[i], clusters[i].members, ClusterFields)
  {
    var r := ClustersFromReply(reply);
    assert r == FormatEach(clusters, ClusterFields);
    TablesHaveDistinctTargets();
    forall i | 0 <= i < |clusters|
      ensures Renamed(r.value[i], clusters[i].members, ClusterFields)
    {
      FormatRecordRenames(clusters[i], ClusterFields);
    }
  }

  /** `list_clusters(page_size=10, current_page=1)`: every failure is reported as
      "Failed to list clusters: ...". */
  function ListClusters(config: Config, net: Network, pageSize: int := 10, currentPage: int := 1)
    : (r: Result<seq<Json>, Error>)
    ensures r.Err? ==> r.error.Tool? && r.error.operation == "list clusters"
    ensures var reply := ControlPlaneApiRequest(config, net, ClustersUri, Some(ClustersQuery(pageSize, currentPage)),
                                                None, "GET");
      && (reply.Err? ==> r == Err(Tool("list clusters", reply.error)))
      && (reply.Ok? && ClustersFromReply(reply.value).Ok? ==> r == ClustersFromReply(reply.value))
      && (reply.Ok? && ClustersFromReply(reply.value).Err? ==> r == Err(Tool("list clusters", ClustersFromReply(reply.value).error)))
  {
    Wrap("list clusters",
      var reply :- ControlPlaneApiRequest(config, net, ClustersUri, Some(ClustersQuery(pageSize, currentPage)),
                                          None, "GET");
      ClustersFromReply(reply))
  }

  /** `list_clusters` sends one GET to the clusters path whose query is exactly
      the page size and the current page, 10 and 1 unless given. */
  lemma ListClustersSendsOnly(config: Config, net1: Network, net2: Network, pageSize: int, currentPage: int)
    requires net1(ClustersRequest(config, pageSize, currentPage)) == net2(ClustersRequest(config, pageSize, currentPage))
    ensures ControlPlaneRequest(config, ClustersUri, Some(ClustersQuery(pageSize, currentPage)), None, "GET")
            == Ok(ClustersRequest(config, pageSize, currentPage))
    ensures ListClusters(config, net1, pageSize, currentPage) == ListClusters(config, net2, pageSize, currentPage)
    ensures ListClusters(config, net1) == ListClusters(config, net1, 10, 1)
  {
    Text.NotBlankWhenFirstNonSpace(ClustersUri);
    ControlPlaneSendsOnly(config, net1, net2, ClustersUri, Some(ClustersQuery(pageSize, currentPage)), None, "GET");
  }

  // ---------------------------------------------------------------- free cluster

  /** `{'clusterName': ..., 'projectId': ..., 'regionId': config.free_cluster_region}`. */
  function FreeClusterBody(config: Config, clusterName: string, projectId: string): Json
  {
    JObj([("clusterName", JStr(clusterName)),
          ("projectId", JStr(projectId)),
          ("regionId", JStr(config.freeClusterRegion))])
  }

  /** The request `create_free_cluster` sends. */
  function FreeClusterRequest(config: Config, clusterName: string, projectId: string): Request
  {
    PostRequest(config.token, UrlJoin(config.cloudUri, CreateFreeClusterUri), None,
                Some(FreeClusterBody(config, clusterName, projectId)))
  }

  /** How `create_free_cluster` turns the client's reply into its summary: `data`
      (an empty dict when absent) renamed to three keys. */
  function FreeClusterFromReply(reply: Json): (r: Result<Json, Error>)
    ensures r.Ok? ==> r.value.JObj? && Keys(r.value.members) == Targets(FreeClusterFields)
    ensures reply.JObj? && Lookup(reply.members, "data").Some? && !Lookup(reply.members, "data").value.JObj? ==>
      r == Err(NoGet(Lookup(reply.members, "data").value))
    ensures !reply.JObj? ==> r == Err(NoGet(reply))
  {
    var data :- Get(reply, "data", JObj([]));
    FormatRecord(data, FreeClusterFields)
  }

  /** A reply without `data` gives "Unknown" for all three keys. */
  lemma FreeClusterWithoutData(reply: Json)
    requires reply.JObj? && "data" !in Keys(reply.members)
    ensures FreeClusterFromReply(reply) == Ok(JObj([("cluster_id", Unknown), ("username", Unknown), ("prompt", Unknown)]))
  {
    var out := FormatRecord(JObj([]), FreeClusterFields).value.members;
    assert forall i :: 0 <= i < 3 ==> GetOr([], FreeClusterFields[i].source, Unknown) == Unknown;
    assert out == [("cluster_id", Unknown), ("username", Unknown), ("prompt", Unknown)];
  }

  /** A `data` dict is renamed to `cluster_id`, `username`, `prompt`. */
  lemma FreeClusterFromReplyRenames(reply: Json, data: seq<(string, Json)>)
    requires reply.JObj? && Lookup(reply.members, "data") == Some(JObj(data))
    ensures FreeClusterFromReply(reply).Ok?
    ensures Renamed(FreeClusterFromReply(reply).value, data, FreeClusterFields)
  {
    TablesHaveDistinctTargets();
    FormatRecordRenames(JObj(data), FreeClusterFields);
  }

  /** `create_free_cluster(cluster_name, project_id)`: every failure is reported
      as "Failed to create free cluster: ...". */
  function CreateFreeCluster(config: Config, net: Network, clusterName: string, projectId: string)
    : (r: Result<Json, Error>)
    ensures r.Err? ==> r.error.Tool? && r.error.operation == "create free cluster"
    ensures var reply := ControlPlaneApiRequest(config, net, CreateFreeClusterUri, None,
                                                Some(FreeClusterBody(config, clusterName, projectId)), "POST");
      && (reply.Err? ==> r == Err(Tool("create free cluster", reply.error)))
      && (reply.Ok? && FreeClusterFromReply(reply.value).Ok? ==> r == FreeClusterFromReply(reply.value))
      && (reply.Ok? && FreeClusterFromReply(reply.value).Err? ==> r == Err(Tool("create free cluster", FreeClusterFromReply(reply.value).error)))
  {
    Wrap("create free cluster",
      var reply :- ControlPlaneApiRequest(config, net, CreateFreeClusterUri, None,
                                          Some(FreeClusterBody(config, clusterName, projectId)), "POST");
      FreeClusterFromReply(reply))
  }

  /** `create_free_cluster` POSTs exactly the name, the project and the configured
      free-tier region to the create-free path, with no query. */
  lemma CreateFreeClusterSendsOnly(config: Config, net1: Network, net2: Network, clusterName: string,
                                   projectId: string)
    requires net1(FreeClusterRequest(config, clusterName, projectId))
             == net2(FreeClusterRequest(config, clusterName, projectId))
    ensures ControlPlaneRequest(config, CreateFreeClusterUri, None,
                                Some(FreeClusterBody(config, clusterName, projectId)), "POST")
            == Ok(FreeClusterRequest(config, clusterName, projectId))
    ensures CreateFreeCluster(config, net1, clusterName, projectId)
            == CreateFreeCluster(config, net2, clusterName, projectId)
  {
    Text.NotBlankWhenFirstNonSpace(CreateFreeClusterUri);
    ControlPlaneSendsOnly(config, net1, net2, CreateFreeClusterUri, None,
                          Some(FreeClusterBody(config, clusterName, projectId)), "POST");
  }
}
