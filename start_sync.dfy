/**
 * The scheduled ingestion trigger: the event is checked against its schema,
 * then one `startIngestionJob` call is made with the two ids. Nothing is
 * caught and nothing is retried.
 */
module StartSync {
  import opened Wrappers
  import opened Json
  import opened CustomResourceEvents

  /** `StartIngestionJobEvent`: what the schema lets through. */
  datatype StartIngestionJobEvent = StartIngestionJobEvent(knowledgeBaseId: string, dataSourceId: string)

  /** A call to the ingestion API. */
  datatype IngestionCall = StartIngestionJob(knowledgeBaseId: string, dataSourceId: string)

  datatype SyncError = SchemaRejected | StartIngestionJobFailed

  /** The calls one invocation made, and whether it returned or threw. */
  datatype SyncRun = SyncRun(calls: seq<IngestionCall>, result: Outcome<SyncError>)

  /** `startIngestionJobEventSchema`: both ids present and strings; other keys are ignored. */
  predicate MatchesSchema(raw: map<string, Json>)
  {
    HasString(raw, "knowledgeBaseId") && HasString(raw, "dataSourceId")
  }

  /** The schema check the handler's parser decorator applies before the handler body runs. */
  function ParseEvent(raw: map<string, Json>): (r: Result<StartIngestionJobEvent, SyncError>)
    ensures r.Success? <==> MatchesSchema(raw)
    ensures r.Failure? ==> r.error == SchemaRejected
    ensures r.Success? ==> raw["knowledgeBaseId"] == JStr(r.value.knowledgeBaseId)
                           && raw["dataSourceId"] == JStr(r.value.dataSourceId)
  {
    if MatchesSchema(raw) then Success(StartIngestionJobEvent(raw["knowledgeBaseId"].s, raw["dataSourceId"].s))
    else Failure(SchemaRejected)
  }

  /** The event the schedule rule sends: the knowledge base id and the data source id. */
  function ScheduledEvent(knowledgeBaseId: string, dataSourceId: string): map<string, Json>
  {
    map["knowledgeBaseId" := JStr(knowledgeBaseId), "dataSourceId" := JStr(dataSourceId)]
  }

  /** The schema reads back exactly the ids the schedule put in. */
  lemma ParseScheduledEvent(knowledgeBaseId: string, dataSourceId: string)
    ensures ParseEvent(ScheduledEvent(knowledgeBaseId, dataSourceId))
            == Success(StartIngestionJobEvent(knowledgeBaseId, dataSourceId))
  {
  }

  /**
   * `Lambda.handler`: a rejected event makes no call; an accepted one makes
   * exactly one call with its ids unchanged, and a failure of that call
   * surfaces from the handler. A successful run returns no value.
   */
  function Handler(raw: map<string, Json>, startFails: bool): (run: SyncRun)
    ensures !MatchesSchema(raw) ==> run == SyncRun([], Fail(SchemaRejected))
    ensures MatchesSchema(raw) ==>
              run.calls == [StartIngestionJob(raw["knowledgeBaseId"].s, raw["dataSourceId"].s)]
    ensures run.result.Pass? <==> MatchesSchema(raw) && !startFails
    ensures MatchesSchema(raw) && startFails ==> run.result == Fail(StartIngestionJobFailed)
  {
    match ParseEvent(raw)
    case Failure(e) => SyncRun([], Fail(e))
    case Success(event) =>
      SyncRun([StartIngestionJob(event.knowledgeBaseId, event.dataSourceId)],
              if startFails then Fail(StartIngestionJobFailed) else Pass)
  }
}
