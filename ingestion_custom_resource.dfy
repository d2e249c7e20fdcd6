/**
 * The one-shot ingestion trigger run as a custom resource: only a Create
 * request starts an ingestion job; every request that returns answers success.
 */
module IngestionCustomResource {
  import opened Wrappers
  import opened Json
  import opened CustomResourceEvents
  import StartSync

  /** The calls one invocation made, and the response it returned or the error it threw. */
  datatype TriggerRun = TriggerRun(calls: seq<StartSync.IngestionCall>, result: Result<CfnResponse, StartSync.SyncError>)

  /** The response: success echoing the request, the data source id as physical id, and empty data. */
  function TriggerResponse(event: CfnEvent): (resp: CfnResponse)
    ensures resp.status == SUCCESS
    ensures resp.requestId == event.requestId && resp.logicalResourceId == event.logicalResourceId
    ensures resp.stackId == event.stackId
    ensures resp.physicalResourceId == Property(event.resourceProperties, "dataSourceId")
    ensures resp.data == Some(map[])
  {
    CfnResponse(SUCCESS, event.requestId, event.logicalResourceId, event.stackId,
                Property(event.resourceProperties, "dataSourceId"), Some(map[]))
  }

  /**
   * `handler`: on Create it runs the scheduled trigger's handler on the
   * property bag, with no catch around it; Update and Delete call nothing.
   */
  function Handler(event: CfnEvent, startFails: bool): (run: TriggerRun)
    ensures event.requestType != Create ==> run == TriggerRun([], Success(TriggerResponse(event)))
    ensures event.requestType == Create ==>
              run.calls == StartSync.Handler(event.resourceProperties, startFails).calls
    ensures event.requestType == Create ==>
              (run.result.Success? <==> StartSync.Handler(event.resourceProperties, startFails).result.Pass?)
    ensures run.result.Success? ==> run.result.value == TriggerResponse(event)
    ensures run.result.Failure? ==>
              event.requestType == Create
              && StartSync.Handler(event.resourceProperties, startFails).result == Fail(run.result.error)
  {
    if event.requestType == Create then
      var sync := StartSync.Handler(event.resourceProperties, startFails);
      match sync.result
      case Fail(e) => TriggerRun(sync.calls, Failure(e))
      case Pass => TriggerRun(sync.calls, Success(TriggerResponse(event)))
    else TriggerRun([], Success(TriggerResponse(event)))
  }

  /** A Create with a valid bag starts exactly one job, for the bag's own ids. */
  lemma CreateStartsOneJob(event: CfnEvent, startFails: bool)
    requires event.requestType == Create && StartSync.MatchesSchema(event.resourceProperties)
    ensures Handler(event, startFails).calls
            == [StartSync.StartIngestionJob(event.resourceProperties["knowledgeBaseId"].s,
                                            event.resourceProperties["dataSourceId"].s)]
  {
  }

  /** The physical id and the data do not depend on the request type. */
  lemma ResponseIgnoresRequestType(event: CfnEvent, requestType: RequestType, startFails: bool)
    requires Handler(event, startFails).result.Success?
    requires Handler(event.(requestType := requestType), startFails).result.Success?
    ensures var r1 := Handler(event, startFails).result.value;
            var r2 := Handler(event.(requestType := requestType), startFails).result.value;
            r1.physicalResourceId == r2.physicalResourceId && r1.data == r2.data && r1.status == r2.status
  {
  }
}
