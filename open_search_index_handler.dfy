/**
 * The custom-resource handler that creates and deletes an OpenSearch index.
 * The index store it talks to is modelled as abstract state: the set of
 * index names it holds and the log of calls it has received. Whether an
 * external call fails is an input (`Faults`), so every outcome is covered.
 */
module IndexHandler {
  import opened Wrappers
  import opened Json
  import opened CustomResourceEvents

  /** `IndexConfiguration`: what `createIndex` reads from the property bag. */
  datatype IndexConfiguration = IndexConfiguration(
    indexName: string,
    dimensions: int,
    metadataField: string,
    textField: string,
    vectorField: string)

  /** The bag carries the index name as a string. */
  predicate HasIndexName(props: map<string, Json>)
  {
    HasString(props, "indexName")
  }

  /** The bag carries every field `createIndex` reads, with the types it uses them at. */
  predicate HasIndexConfiguration(props: map<string, Json>)
  {
    && HasIndexName(props)
    && "dimensions" in props && props["dimensions"].JNum?
    && HasString(props, "metadataField")
    && HasString(props, "textField")
    && HasString(props, "vectorField")
  }

  /** The configuration the handler passes to `createIndex`. */
  function ConfigurationOf(props: map<string, Json>): (cfg: IndexConfiguration)
    requires HasIndexConfiguration(props)
    ensures props["indexName"] == JStr(cfg.indexName) && props["dimensions"] == JNum(cfg.dimensions)
    ensures props["metadataField"] == JStr(cfg.metadataField) && props["textField"] == JStr(cfg.textField)
    ensures props["vectorField"] == JStr(cfg.vectorField)
  {
    IndexConfiguration(
      props["indexName"].s,
      props["dimensions"].n,
      props["metadataField"].s,
      props["textField"].s,
      props["vectorField"].s)
  }

  // ---------------------------------------------------------------------
  // The create request body
  // ---------------------------------------------------------------------

  /** The metadata field: stored as text, not indexed. */
  const MetadataMapping: Json := JObj([("type", JStr("text")), ("index", JBool(false))])

  /** The text field: indexed as text. */
  const TextMapping: Json := JObj([("type", JStr("text")), ("index", JBool(true))])

  /** The vector field: a k-NN vector of `dimension` using HNSW, L2 distance and the faiss engine. */
  function VectorMapping(dimension: int): Json
  {
    JObj([("type", JStr("knn_vector")),
          ("dimension", JNum(dimension)),
          ("method", JObj([("name", JStr("hnsw")), ("space_type", JStr("l2")), ("engine", JStr("faiss"))]))])
  }

  /**
   * The field mappings, written as an object literal with computed keys: when
   * two field names coincide, the later mapping replaces the earlier one.
   */
  function MappingProperties(cfg: IndexConfiguration): (m: seq<(string, Json)>)
    ensures Keys(m) == {cfg.metadataField, cfg.textField, cfg.vectorField}
    ensures Lookup(m, cfg.vectorField) == Some(VectorMapping(cfg.dimensions))
    ensures cfg.textField != cfg.vectorField ==> Lookup(m, cfg.textField) == Some(TextMapping)
    ensures cfg.metadataField != cfg.textField && cfg.metadataField != cfg.vectorField ==>
              Lookup(m, cfg.metadataField) == Some(MetadataMapping)
  {
    var m1 := Put([], cfg.metadataField, MetadataMapping);
    var m2 := Put(m1, cfg.textField, TextMapping);
    Put(m2, cfg.vectorField, VectorMapping(cfg.dimensions))
  }

  /** The body of the create call: k-NN enabled, and the three field mappings. */
  function CreateIndexBody(cfg: IndexConfiguration): (body: Json)
    ensures GetPath(body, ["settings", "index", "knn"]) == Some(JBool(true))
    ensures GetPath(body, ["mappings", "properties"]) == Some(JObj(MappingProperties(cfg)))
  {
    var settings := JObj([("index", JObj([("knn", JBool(true))]))]);
    var mappings := JObj([("properties", JObj(MappingProperties(cfg)))]);
    var members := [("settings", settings), ("mappings", mappings)];
    assert members[1..] == [members[1]];
    assert GetPath(settings, ["index", "knn"]) == Some(JBool(true)) by {
      assert ["index", "knn"][1..] == ["knn"];
    }
    assert GetPath(mappings, ["properties"]) == Some(JObj(MappingProperties(cfg)));
    assert ["settings", "index", "knn"][1..] == ["index", "knn"];
    assert ["mappings", "properties"][1..] == ["properties"];
    JObj(members)
  }

  // ---------------------------------------------------------------------
  // The index store
  // ---------------------------------------------------------------------

  datatype StoreCall = ExistsCall(index: string) | CreateCall(index: string, body: Json) | DeleteCall(index: string)

  datatype StoreError = RequestFailed | ResourceAlreadyExists | IndexNotFound

  /** Which external calls of one invocation fail for reasons outside the model (network, rights, throttling). */
  datatype Faults = Faults(existsFails: bool, createFails: bool, deleteFails: bool)

  /** The outcome of a create call: it fails on a fault and on a name already taken. */
  function CreateOutcome(indices: set<string>, index: string, fails: bool): Outcome<StoreError>
  {
    if fails then Fail(RequestFailed)
    else if index in indices then Fail(ResourceAlreadyExists)
    else Pass
  }

  /** The outcome of a delete call: it fails on a fault and on a name not present. */
  function DeleteOutcome(indices: set<string>, index: string, fails: bool): Outcome<StoreError>
  {
    if fails then Fail(RequestFailed)
    else if index !in indices then Fail(IndexNotFound)
    else Pass
  }

  /**
   * The OpenSearch collection endpoint the client is configured with. `node`
   * and `region` come from the environment and are not interpreted.
   */
  class IndexStore {
    const node: string
    const region: string
    var indices: set<string>
    var calls: seq<StoreCall>

    constructor (node: string, region: string, indices: set<string>)
      ensures this.node == node && this.region == region && this.indices == indices && calls == []
    {
      this.node := node;
      this.region := region;
      this.indices := indices;
      calls := [];
    }

    /** `indices.exists`. */
    method Exists(index: string, fails: bool) returns (r: Result<bool, StoreError>)
      modifies this
      ensures calls == old(calls) + [ExistsCall(index)] && indices == old(indices)
      ensures r == if fails then Failure(RequestFailed) else Success(index in indices)
    {
      calls := calls + [ExistsCall(index)];
      r := if fails then Failure(RequestFailed) else Success(index in indices);
    }

    /** `indices.create`. */
    method Create(index: string, body: Json, fails: bool) returns (r: Outcome<StoreError>)
      modifies this
      ensures calls == old(calls) + [CreateCall(index, body)]
      ensures r == CreateOutcome(old(indices), index, fails)
      ensures indices == if r.Pass? then old(indices) + {index} else old(indices)
    {
      calls := calls + [CreateCall(index, body)];
      r := CreateOutcome(indices, index, fails);
      if r.Pass? {
        indices := indices + {index};
      }
    }

    /** `indices.delete`. */
    method Delete(index: string, fails: bool) returns (r: Outcome<StoreError>)
      modifies this
      ensures calls == old(calls) + [DeleteCall(index)]
      ensures r == DeleteOutcome(old(indices), index, fails)
      ensures indices == if r.Pass? then old(indices) - {index} else old(indices)
    {
      calls := calls + [DeleteCall(index)];
      r := DeleteOutcome(indices, index, fails);
      if r.Pass? {
        indices := indices - {index};
      }
    }
  }

  // ---------------------------------------------------------------------
  // What one invocation does to the store
  // ---------------------------------------------------------------------

  /** The calls one step issues, the indices it leaves and the error it logs and swallows. */
  datatype Effect = Effect(calls: seq<StoreCall>, indices: set<string>, logged: Option<StoreError>)

  /**
   * `createIndex`: an existence check, then the create call whatever the check
   * answered (the guard on an existing index is commented out). A failing
   * check skips the create; every failure is only logged.
   */
  function CreateIndexEffect(indices: set<string>, cfg: IndexConfiguration, faults: Faults): (e: Effect)
    ensures faults.existsFails ==> e == Effect([ExistsCall(cfg.indexName)], indices, Some(RequestFailed))
    ensures !faults.existsFails ==>
              e.calls == [ExistsCall(cfg.indexName), CreateCall(cfg.indexName, CreateIndexBody(cfg))]
    ensures e.indices == indices || e.indices == indices + {cfg.indexName}
    ensures !faults.existsFails && !faults.createFails ==> cfg.indexName in e.indices
    ensures e.logged.None? <==> !faults.existsFails && !faults.createFails && cfg.indexName !in indices
    ensures e.logged.None? <==> e.indices == indices + {cfg.indexName} && cfg.indexName !in indices
  {
    if faults.existsFails then Effect([ExistsCall(cfg.indexName)], indices, Some(RequestFailed))
    else
      var created := CreateOutcome(indices, cfg.indexName, faults.createFails);
      Effect([ExistsCall(cfg.indexName), CreateCall(cfg.indexName, CreateIndexBody(cfg))],
             if created.Pass? then indices + {cfg.indexName} else indices,
             if created.Fail? then Some(created.error) else None)
  }

  /** `deleteIndex`: exactly one delete call; a failure, "not found" included, is only logged. */
  function DeleteIndexEffect(indices: set<string>, indexName: string, fails: bool): (e: Effect)
    ensures e.calls == [DeleteCall(indexName)]
    ensures indexName !in e.indices || fails
    ensures e.indices == indices - {indexName} || e.indices == indices
    ensures !fails ==> e.indices == indices - {indexName}
    ensures e.logged.None? <==> !fails && indexName in indices
  {
    var deleted := DeleteOutcome(indices, indexName, fails);
    Effect([DeleteCall(indexName)],
           if deleted.Pass? then indices - {indexName} else indices,
           if deleted.Fail? then Some(deleted.error) else None)
  }

  /** What the bag of `event` lets the handler do. */
  predicate HandlerAccepts(event: CfnEvent)
  {
    if event.requestType == Delete then HasIndexName(event.resourceProperties)
    else HasIndexConfiguration(event.resourceProperties)
  }

  /** The dispatch on the request type: Create and Update create, Delete deletes. */
  function HandleEffect(indices: set<string>, event: CfnEvent, faults: Faults): (e: Effect)
    requires HandlerAccepts(event)
    ensures event.requestType != Delete ==>
              e == CreateIndexEffect(indices, ConfigurationOf(event.resourceProperties), faults)
    ensures event.requestType == Delete ==>
              e == DeleteIndexEffect(indices, event.resourceProperties["indexName"].s, faults.deleteFails)
  {
    match event.requestType
    case Create => CreateIndexEffect(indices, ConfigurationOf(event.resourceProperties), faults)
    case Update => CreateIndexEffect(indices, ConfigurationOf(event.resourceProperties), faults)
    case Delete => DeleteIndexEffect(indices, event.resourceProperties["indexName"].s, faults.deleteFails)
  }

  /**
   * The response: always a success that echoes the request, with the physical
   * id read from the property `INDEX_NAME` and no data.
   */
  function IndexResponse(event: CfnEvent): (resp: CfnResponse)
    ensures resp.status == SUCCESS
    ensures resp.requestId == event.requestId && resp.logicalResourceId == event.logicalResourceId
    ensures resp.stackId == event.stackId
    ensures resp.physicalResourceId == Property(event.resourceProperties, "INDEX_NAME")
    ensures resp.data.None?
  {
    CfnResponse(SUCCESS, event.requestId, event.logicalResourceId, event.stackId,
                Property(event.resourceProperties, "INDEX_NAME"), None)
  }

  /** A Create handled twice with no fault leaves the index present and answers the same both times. */
  lemma CreateTwiceIsStable(indices: set<string>, event: CfnEvent)
    requires event.requestType == Create && HasIndexConfiguration(event.resourceProperties)
    ensures var cfg := ConfigurationOf(event.resourceProperties);
            var first := HandleEffect(indices, event, Faults(false, false, false));
            var second := HandleEffect(first.indices, event, Faults(false, false, false));
            && cfg.indexName in first.indices
            && second.indices == first.indices
            && second.logged == Some(ResourceAlreadyExists)
  {
  }

  /** A Delete of an index that is not there is logged as "not found" and changes nothing. */
  lemma DeleteOfAbsentIsHarmless(indices: set<string>, event: CfnEvent, faults: Faults)
    requires event.requestType == Delete && HasIndexName(event.resourceProperties)
    requires event.resourceProperties["indexName"].s !in indices
    ensures var e := HandleEffect(indices, event, faults);
            e.indices == indices && e.logged.Some?
  {
  }

  // ---------------------------------------------------------------------
  // The handler
  // ---------------------------------------------------------------------

  /** `Handler`: the client it uses is the one configured at start-up. */
  class Handler {
    const client: IndexStore

    constructor (client: IndexStore)
      ensures this.client == client
    {
      this.client := client;
    }

    /** `createIndex`; returns the error it logged, if any. */
    method CreateIndex(cfg: IndexConfiguration, faults: Faults) returns (logged: Option<StoreError>)
      modifies client
      ensures var e := CreateIndexEffect(old(client.indices), cfg, faults);
              client.calls == old(client.calls) + e.calls && client.indices == e.indices && logged == e.logged
    {
      var indexExists := client.Exists(cfg.indexName, faults.existsFails);
      if indexExists.Failure? {
        return Some(indexExists.error);
      }
      // The answer of the existence check is not used: its guard is commented out.
      var created := client.Create(cfg.indexName, CreateIndexBody(cfg), faults.createFails);
      logged := if created.Fail? then Some(created.error) else None;
    }

    /** `deleteIndex`; returns the error it logged, if any. */
    method DeleteIndex(indexName: string, fails: bool) returns (logged: Option<StoreError>)
      modifies client
      ensures var e := DeleteIndexEffect(old(client.indices), indexName, fails);
              client.calls == old(client.calls) + e.calls && client.indices == e.indices && logged == e.logged
    {
      var deleted := client.Delete(indexName, fails);
      logged := if deleted.Fail? then Some(deleted.error) else None;
    }

    /**
     * `handler`: dispatches on the request type and answers success whatever
     * the store did; no outcome of an external call reaches the response.
     */
    method Handle(event: CfnEvent, faults: Faults) returns (resp: CfnResponse)
      requires HandlerAccepts(event)
      modifies client
      ensures resp == IndexResponse(event)
      ensures var e := HandleEffect(old(client.indices), event, faults);
              client.calls == old(client.calls) + e.calls && client.indices == e.indices
    {
      var props := event.resourceProperties;
      match event.requestType {
        case Create =>
          var _ := CreateIndex(ConfigurationOf(props), faults);
        case Update =>
          var _ := CreateIndex(ConfigurationOf(props), faults);
        case Delete =>
          var _ := DeleteIndex(props["indexName"].s, faults.deleteFails);
      }
      resp := IndexResponse(event);
    }
  }
}
