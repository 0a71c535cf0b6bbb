/** The data-plane tools: list databases, list collections, create a
    collection. Each builds a POST body, calls the data-plane builder with the
    cluster and region ids, passes back the reply or its `data`, and wraps any
    failure as "Failed to <operation>: <message>". */
module MilvusTools {
  import opened Results
  import opened Assoc
  import opened Json
  import opened Errors
  import opened Text
  import opened PyValue
  import opened OpenApiClient

  const DatabasesListUri := "/v2/vectordb/databases/list"
  const CollectionsListUri := "/v2/vectordb/collections/list"
  const CollectionsCreateUri := "/v2/vectordb/collections/create"
  const VarCharMaxLength := 255

  /** The URL a data-plane path resolves to for a cluster. */
  function DataPlaneUrl(config: Config, clusterId: string, regionId: string, uri: string): Url
  {
    UrlJoin(ClusterEndpoint(config.clusterEndpoint, clusterId, regionId), uri)
  }

  // ---------------------------------------------------------------- databases

  /** The request `list_databases` sends: a POST with an empty body. */
  function DatabasesRequest(config: Config, clusterId: string, regionId: string): Request
  {
    PostRequest(config.token, DataPlaneUrl(config, clusterId, regionId, DatabasesListUri), None, Some(JObj([])))
  }

  /** `list_databases(cluster_id, region_id)`: the reply's `data`, an empty list
      when absent; every failure is reported as "Failed to list databases: ...". */
  function ListDatabases(config: Config, net: Network, clusterId: string, regionId: string)
    : (r: Result<Json, Error>)
    ensures r.Err? ==> r.error.Tool? && r.error.operation == "list databases"
    ensures var reply := DataPlaneApiRequest(config, net, DatabasesListUri, clusterId, regionId, None,
                                             Some(JObj([])), "POST");
      && (reply.Err? ==> r == Err(Tool("list databases", reply.error)))
      && (reply.Ok? && reply.value.JObj? ==> r == Ok(GetOr(reply.value.members, "data", JArr([]))))
      && (reply.Ok? && !reply.value.JObj? ==> r == Err(Tool("list databases", NoGet(reply.value))))
  {
    Wrap("list databases",
      var reply :- DataPlaneApiRequest(config, net, DatabasesListUri, clusterId, regionId, None,
                                       Some(JObj([])), "POST");
      Get(reply, "data", JArr([])))
  }

  /** With both ids given, `list_databases` sends exactly its one request and
      depends on nothing else the network does. */
  lemma ListDatabasesSendsOnly(config: Config, net1: Network, net2: Network, clusterId: string, regionId: string)
    requires !Blank(clusterId) && !Blank(regionId)
    requires net1(DatabasesRequest(config, clusterId, regionId)) == net2(DatabasesRequest(config, clusterId, regionId))
    ensures DataPlaneRequest(config, DatabasesListUri, clusterId, regionId, None, Some(JObj([])), "POST")
            == Ok(DatabasesRequest(config, clusterId, regionId))
    ensures ListDatabases(config, net1, clusterId, regionId) == ListDatabases(config, net2, clusterId, regionId)
  {
    NotBlankWhenFirstNonSpace(DatabasesListUri);
    DataPlanePost(config, DatabasesListUri, clusterId, regionId, None, Some(JObj([])));
    DataPlaneSendsOnly(config, net1, net2, DatabasesListUri, clusterId, regionId, None, Some(JObj([])), "POST");
  }

  /** A blank cluster or region id fails before any request, and the caller
      reads the client's validation message, the cluster id's first, behind the
      tool's prefix. */
  lemma ListDatabasesRejectsBlankIds(config: Config, net: Network, clusterId: string, regionId: string)
    requires Blank(clusterId) || Blank(regionId)
    ensures var m := if Blank(clusterId) then ClusterIdRequired else RegionIdRequired;
      && ListDatabases(config, net, clusterId, regionId) == Err(Tool("list databases", InvalidArgument(m)))
      && Message(ListDatabases(config, net, clusterId, regionId).error) == "Failed to list databases: " + m
  {
    var m := if Blank(clusterId) then ClusterIdRequired else RegionIdRequired;
    NotBlankWhenFirstNonSpace(DatabasesListUri);
    DataPlaneRejectsBlank(config, net, DatabasesListUri, clusterId, regionId, None, Some(JObj([])), "POST");
    var prefix := "Failed to " + "list databases" + ": ";
    assert prefix == "Failed to list databases: ";
  }

  // ---------------------------------------------------------------- collections

  /** `{"dbName": db_name}`. */
  function CollectionsListBody(dbName: string): Json
  {
    JObj([("dbName", JStr(dbName))])
  }

  /** The request `list_collections` sends. */
  function CollectionsRequest(config: Config, clusterId: string, regionId: string, dbName: string): Request
  {
    PostRequest(config.token, DataPlaneUrl(config, clusterId, regionId, CollectionsListUri), None,
                Some(CollectionsListBody(dbName)))
  }

  /** `list_collections(cluster_id, region_id, db_name="default")`: the reply's
      `data`, an empty list when absent; every failure is reported as
      "Failed to list collections: ...". */
  function ListCollections(config: Config, net: Network, clusterId: string, regionId: string,
                           dbName: string := "default"): (r: Result<Json, Error>)
    ensures r.Err? ==> r.error.Tool? && r.error.operation == "list collections"
    ensures var reply := DataPlaneApiRequest(config, net, CollectionsListUri, clusterId, regionId, None,
                                             Some(CollectionsListBody(dbName)), "POST");
      && (reply.Err? ==> r == Err(Tool("list collections", reply.error)))
      && (reply.Ok? && reply.value.JObj? ==> r == Ok(GetOr(reply.value.members, "data", JArr([]))))
      && (reply.Ok? && !reply.value.JObj? ==> r == Err(Tool("list collections", NoGet(reply.value))))
  {
    Wrap("list collections",
      var reply :- DataPlaneApiRequest(config, net, CollectionsListUri, clusterId, regionId, None,
                                       Some(CollectionsListBody(dbName)), "POST");
      Get(reply, "data", JArr([])))
  }

  /** With both ids given, `list_collections` POSTs exactly `{"dbName": db_name}`,
      with "default" unless a name is given, and depends on nothing else. */
  lemma ListCollectionsSendsOnly(config: Config, net1: Network, net2: Network, clusterId: string,
                                 regionId: string, dbName: string)
    requires !Blank(clusterId) && !Blank(regionId)
    requires net1(CollectionsRequest(config, clusterId, regionId, dbName))
             == net2(CollectionsRequest(config, clusterId, regionId, dbName))
    ensures DataPlaneRequest(config, CollectionsListUri, clusterId, regionId, None,
                             Some(CollectionsListBody(dbName)), "POST")
            == Ok(CollectionsRequest(config, clusterId, regionId, dbName))
    ensures ListCollections(config, net1, clusterId, regionId, dbName)
            == ListCollections(config, net2, clusterId, regionId, dbName)
    ensures ListCollections(config, net1, clusterId, regionId)
            == ListCollections(config, net1, clusterId, regionId, "default")
  {
    NotBlankWhenFirstNonSpace(CollectionsListUri);
    DataPlanePost(config, CollectionsListUri, clusterId, regionId, None, Some(CollectionsListBody(dbName)));
    DataPlaneSendsOnly(config, net1, net2, CollectionsListUri, clusterId, regionId, None,
                       Some(CollectionsListBody(dbName)), "POST");
  }

  // ---------------------------------------------------------------- create collection

  /** The arguments of `create_collection` after the two ids, with their defaults. */
  datatype QuickSetup = QuickSetup(
    collectionName: string,
    dimension: int,
    dbName: string := "default",
    metricType: string := "L2",
    idType: string := "Int64",
    autoId: bool := true,
    primaryFieldName: string := "id",
    vectorFieldName: string := "vector")

  /** The keys every quick-setup body carries. */
  const QuickSetupKeys: seq<string> := [
    "dbName", "collectionName", "dimension", "metricType",
    "idType", "autoID", "primaryFieldName", "vectorFieldName"
  ]

  const VarCharParams := JObj([("max_length", JNum(VarCharMaxLength))])

  /** The quick-setup body, with `params` appended for a VarChar primary key. */
  function CollectionBody(setup: QuickSetup): seq<(string, Json)>
  {
    var base := [
      ("dbName", JStr(setup.dbName)),
      ("collectionName", JStr(setup.collectionName)),
      ("dimension", JNum(setup.dimension)),
      ("metricType", JStr(setup.metricType)),
      ("idType", JStr(setup.idType)),
      ("autoID", JBool(setup.autoId)),
      ("primaryFieldName", JStr(setup.primaryFieldName)),
      ("vectorFieldName", JStr(setup.vectorFieldName))
    ];
    if setup.idType == "VarChar" then base + [("params", VarCharParams)] else base
  }

  /** The body's keys, in order: the eight quick-setup keys, then `params`
      exactly for a VarChar primary key; no key repeats. */
  lemma CollectionBodyKeys(setup: QuickSetup)
    ensures Keys(CollectionBody(setup))
            == QuickSetupKeys + (if setup.idType == "VarChar" then ["params"] else [])
    ensures DistinctKeys(CollectionBody(setup))
  {
    var b := CollectionBody(setup);
    var ks := QuickSetupKeys + (if setup.idType == "VarChar" then ["params"] else []);
    assert Keys(b) == ks;
    forall i, j | 0 <= i < j < |b|
      ensures b[i].0 != b[j].0
    {
      assert b[i].0 == ks[i] && b[j].0 == ks[j];
    }
  }

  /** Each of the eight quick-setup keys holds the caller's value (or its default). */
  lemma CollectionBodyValues(setup: QuickSetup)
    ensures var b := CollectionBody(setup);
      && Lookup(b, "dbName") == Some(JStr(setup.dbName))
      && Lookup(b, "collectionName") == Some(JStr(setup.collectionName))
      && Lookup(b, "dimension") == Some(JNum(setup.dimension))
      && Lookup(b, "metricType") == Some(JStr(setup.metricType))
      && Lookup(b, "idType") == Some(JStr(setup.idType))
      && Lookup(b, "autoID") == Some(JBool(setup.autoId))
      && Lookup(b, "primaryFieldName") == Some(JStr(setup.primaryFieldName))
      && Lookup(b, "vectorFieldName") == Some(JStr(setup.vectorFieldName))
  {
    var b := CollectionBody(setup);
    CollectionBodyKeys(setup);
    LookupAt(b, 0);
    LookupAt(b, 1);
    LookupAt(b, 2);
    LookupAt(b, 3);
    LookupAt(b, 4);
    LookupAt(b, 5);
    LookupAt(b, 6);
    LookupAt(b, 7);
  }

  /** `params = {"max_length": 255}` is sent exactly when the id type is "VarChar". */
  lemma CollectionBodyParams(setup: QuickSetup)
    ensures Lookup(CollectionBody(setup), "params")
            == (if setup.idType == "VarChar" then Some(VarCharParams) else None)
  {
    var b := CollectionBody(setup);
    CollectionBodyKeys(setup);
    if setup.idType == "VarChar" {
      LookupAt(b, 8);
    } else {
      assert "params" !in QuickSetupKeys;
    }
  }

  /** Left to their defaults, the optional arguments put "default", "L2", "Int64",
      true, "id" and "vector" in the body, and no `params`. */
  lemma CollectionBodyDefaults(collectionName: string, dimension: int)
    ensures CollectionBody(QuickSetup(collectionName, dimension))
         == [("dbName", JStr("default")), ("collectionName", JStr(collectionName)),
             ("dimension", JNum(dimension)), ("metricType", JStr("L2")), ("idType", JStr("Int64")),
             ("autoID", JBool(true)), ("primaryFieldName", JStr("id")), ("vectorFieldName", JStr("vector"))]
  {
  }

  /** The request `create_collection` sends. */
  function CreateCollectionRequest(config: Config, clusterId: string, regionId: string, setup: QuickSetup): Request
  {
    PostRequest(config.token, DataPlaneUrl(config, clusterId, regionId, CollectionsCreateUri), None,
                Some(JObj(CollectionBody(setup))))
  }

  /** `create_collection(cluster_id, region_id, ...)`: the client's reply,
      unchanged; every failure is reported as "Failed to create collection: ...". */
  function CreateCollection(config: Config, net: Network, clusterId: string, regionId: string, setup: QuickSetup)
    : (r: Result<Json, Error>)
    ensures r.Err? ==> r.error.Tool? && r.error.operation == "create collection"
    ensures var reply := DataPlaneApiRequest(config, net, CollectionsCreateUri, clusterId, regionId, None,
                                             Some(JObj(CollectionBody(setup))), "POST");
      && (reply.Err? ==> r == Err(Tool("create collection", reply.error)))
      && (reply.Ok? ==> r == reply)
  {
    Wrap("create collection",
      DataPlaneApiRequest(config, net, CollectionsCreateUri, clusterId, regionId, None,
                          Some(JObj(CollectionBody(setup))), "POST"))
  }

  /** With both ids given, `create_collection` POSTs exactly the quick-setup body
      and depends on nothing else the network does. */
  lemma CreateCollectionSendsOnly(config: Config, net1: Network, net2: Network, clusterId: string,
                                  regionId: string, setup: QuickSetup)
    requires !Blank(clusterId) && !Blank(regionId)
    requires net1(CreateCollectionRequest(config, clusterId, regionId, setup))
             == net2(CreateCollectionRequest(config, clusterId, regionId, setup))
    ensures DataPlaneRequest(config, CollectionsCreateUri, clusterId, regionId, None,
                             Some(JObj(CollectionBody(setup))), "POST")
            == Ok(CreateCollectionRequest(config, clusterId, regionId, setup))
    ensures CreateCollection(config, net1, clusterId, regionId, setup)
            == CreateCollection(config, net2, clusterId, regionId, setup)
  {
    NotBlankWhenFirstNonSpace(CollectionsCreateUri);
    DataPlanePost(config, CollectionsCreateUri, clusterId, regionId, None, Some(JObj(CollectionBody(setup))));
    DataPlaneSendsOnly(config, net1, net2, CollectionsCreateUri, clusterId, regionId, None,
                       Some(JObj(CollectionBody(setup))), "POST");
  }
}
