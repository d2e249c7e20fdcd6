/**
 * The CloudFormation custom-resource protocol as the handlers see it: the
 * request event and the response record they return.
 */
module CustomResourceEvents {
  import opened Wrappers
  import opened Json

  datatype RequestType = Create | Update | Delete

  /** The event fields the handlers read; `resourceProperties` is the resource's property bag. */
  datatype CfnEvent = CfnEvent(
    requestType: RequestType,
    requestId: string,
    logicalResourceId: string,
    stackId: string,
    resourceProperties: map<string, Json>)

  datatype ResponseStatus = SUCCESS | FAILED

  /** The response record; an absent field is `undefined` in the source. */
  datatype CfnResponse = CfnResponse(
    status: ResponseStatus,
    requestId: string,
    logicalResourceId: string,
    stackId: string,
    physicalResourceId: Option<Json>,
    data: Option<map<string, Json>>)

  /** Property access on the bag; absent keys read as `undefined`. */
  function Property(props: map<string, Json>, key: string): (v: Option<Json>)
    ensures v.Some? <==> key in props
    ensures v.Some? ==> v.value == props[key]
  {
    if key in props then Some(props[key]) else None
  }

  /** A string-valued property. */
  predicate HasString(props: map<string, Json>, key: string)
  {
    key in props && props[key].JStr?
  }
}
