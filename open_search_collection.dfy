/**
 * An OpenSearch Serverless collection with the policies that come with it:
 * the settings derived from the construct's props, the encryption policy it
 * always creates, the network policy it creates on request, and the grants
 * it forwards to its data-access policy.
 */
module Collection {
  import opened Wrappers
  import opened Json
  import opened Text
  import opened DataAccessPolicy

  datatype StandbyReplicas = Enabled | Disabled

  datatype CollectionType = Search | TimeSeries | VectorSearch

  datatype KmsKey = KmsKey(keyArn: string)

  datatype VpcEndpoint = VpcEndpoint(vpcEndpointId: string)

  datatype Tag = Tag(key: string, value: string)

  /** `OpenSearchCollectionProps`: every field is optional. */
  datatype CollectionProps = CollectionProps(
    allowPublicAccess: Option<bool>,
    description: Option<string>,
    kmsKey: Option<KmsKey>,
    name: Option<string>,
    sourceServices: Option<seq<string>>,
    standbyReplicas: Option<StandbyReplicas>,
    tags: Option<seq<Tag>>,
    collectionType: Option<CollectionType>,
    vpcEndpoints: Option<seq<VpcEndpoint>>)

  /** The settings the collection resource itself is created with. */
  datatype CollectionSettings = CollectionSettings(
    description: Option<string>,
    name: string,
    standbyReplicas: StandbyReplicas,
    tags: Option<seq<Tag>>,
    collectionType: CollectionType)

  /** A security policy resource: its name, its type and its serialised policy. */
  datatype SecurityPolicy = SecurityPolicy(name: string, policyType: string, policy: Json)

  /** An identity-policy grant added to the grantee principal. */
  datatype ApiGrant = ApiGrant(grantee: Principal, actions: seq<string>, resourceArns: seq<string>)

  /**
   * The settings for `props`; `scopeUniqueId` is the framework's unique id of
   * the enclosing scope, the source of the default name.
   */
  function SettingsFor(props: CollectionProps, scopeUniqueId: string): (s: CollectionSettings)
    ensures s.name == (if props.name.Some? then props.name.value else ToLowerAscii(scopeUniqueId))
    ensures s.standbyReplicas == (if props.standbyReplicas.Some? then props.standbyReplicas.value else Disabled)
    ensures s.collectionType == (if props.collectionType.Some? then props.collectionType.value else VectorSearch)
    ensures s.description == props.description && s.tags == props.tags
  {
    CollectionSettings(
      props.description,
      match props.name case Some(n) => n case None => ToLowerAscii(scopeUniqueId),
      match props.standbyReplicas case Some(r) => r case None => Disabled,
      props.tags,
      match props.collectionType case Some(t) => t case None => VectorSearch)
  }

  /** A rule over the collection `name` for one resource type. */
  function CollectionRule(name: string, resourceType: string): Json
  {
    JObj([("Resource", JArr([JStr("collection/" + name)])), ("ResourceType", JStr(resourceType))])
  }

  /** The encryption policy: an AWS-owned key unless a KMS key is given. */
  function EncryptionPolicyFor(name: string, kmsKey: Option<KmsKey>): (p: SecurityPolicy)
    ensures p.name == name && p.policyType == "encryption"
    ensures Get(p.policy, "Rules") == Some(JArr([CollectionRule(name, "collection")]))
    ensures Get(p.policy, "AWSOwnedKey") == Some(JBool(kmsKey.None?))
    ensures Get(p.policy, "KmsARN") == (if kmsKey.Some? then Some(JStr(kmsKey.value.keyArn)) else None)
  {
    var members := [("Rules", JArr([CollectionRule(name, "collection")])), ("AWSOwnedKey", JBool(kmsKey.None?))];
    assert members[1..] == [members[1]];
    var keyArn := match kmsKey case Some(k) => Some(JStr(k.keyArn)) case None => None;
    SecurityPolicy(name, "encryption", JObj(PutDefined(members, "KmsARN", keyArn)))
  }

  /**
   * JavaScript truthiness of the three props the network policy depends on:
   * `true` for the flag, any array (empty ones included) for the lists.
   */
  predicate NeedsNetworkPolicy(props: CollectionProps)
  {
    props.allowPublicAccess == Some(true) || props.sourceServices.Some? || props.vpcEndpoints.Some?
  }

  /** The endpoint ids, in input order. */
  function EndpointIds(endpoints: seq<VpcEndpoint>): (ids: seq<Json>)
    ensures |ids| == |endpoints|
    ensures forall i :: 0 <= i < |endpoints| ==> ids[i] == JStr(endpoints[i].vpcEndpointId)
  {
    if |endpoints| == 0 then [] else [JStr(endpoints[0].vpcEndpointId)] + EndpointIds(endpoints[1..])
  }

  /** The body of the network policy: one entry with the access flag, two rules and the endpoints. */
  function NetworkPolicyEntry(props: CollectionProps, name: string): (e: Json)
    ensures Get(e, "AllowFromPublic") == Some(JBool(props.allowPublicAccess == Some(true)))
    ensures Get(e, "Rules") == Some(JArr([CollectionRule(name, "dashboard"), CollectionRule(name, "collection")]))
    ensures Get(e, "SourceVPCEndpoints") ==
              (if props.vpcEndpoints.Some? then Some(JArr(EndpointIds(props.vpcEndpoints.value))) else None)
  {
    var allow := match props.allowPublicAccess case Some(b) => b case None => false;
    var members := [("AllowFromPublic", JBool(allow)),
                    ("Rules", JArr([CollectionRule(name, "dashboard"), CollectionRule(name, "collection")]))];
    assert members[1..] == [members[1]];
    var endpoints := match props.vpcEndpoints case Some(v) => Some(JArr(EndpointIds(v))) case None => None;
    JObj(PutDefined(members, "SourceVPCEndpoints", endpoints))
  }

  /** The network policy, created exactly when one of the three props is truthy. */
  function NetworkPolicyFor(props: CollectionProps, name: string): (p: Option<SecurityPolicy>)
    ensures p.Some? <==> NeedsNetworkPolicy(props)
    ensures p.Some? ==> p.value == SecurityPolicy(name, "network", JArr([NetworkPolicyEntry(props, name)]))
  {
    if NeedsNetworkPolicy(props) then Some(SecurityPolicy(name, "network", JArr([NetworkPolicyEntry(props, name)])))
    else None
  }

  /** `sourceServices` decides whether there is a network policy and never what it says. */
  lemma SourceServicesOnlyGate(props: CollectionProps, services: Option<seq<string>>, name: string)
    requires NeedsNetworkPolicy(props) && NeedsNetworkPolicy(props.(sourceServices := services))
    ensures NetworkPolicyFor(props, name) == NetworkPolicyFor(props.(sourceServices := services), name)
  {
  }

  /** The identity-policy grant every collection grant adds to the principal. */
  function ApiAccessGrant(principal: Principal): ApiGrant
  {
    ApiGrant(principal, ["aoss:APIAccessAll"], ["*"])
  }

  /**
   * `OpenSearchCollection`. It owns its data-access policy; `apiGrants`
   * lists the identity-policy grants it has added to principals, in order.
   */
  class OpenSearchCollection {
    const description: Option<string>
    const name: string
    const standbyReplicas: StandbyReplicas
    const tags: Option<seq<Tag>>
    const collectionType: CollectionType
    const dataAccessPolicy: OpenSearchDataAccessPolicy
    const encryptionPolicy: SecurityPolicy
    const networkPolicy: Option<SecurityPolicy>
    var apiGrants: seq<ApiGrant>

    ghost predicate Valid()
      reads this, dataAccessPolicy
    {
      dataAccessPolicy.Valid() && dataAccessPolicy.collectionName == name
    }

    /**
     * `scopeUniqueId` and `policyUniqueName` stand for the framework's unique
     * id and unique resource name; `account` and `region` are the stack's.
     */
    constructor (props: CollectionProps, scopeUniqueId: string, policyUniqueName: string, account: string, region: string)
      ensures Valid() && fresh(dataAccessPolicy)
      ensures CollectionSettings(description, name, standbyReplicas, tags, collectionType) == SettingsFor(props, scopeUniqueId)
      ensures dataAccessPolicy.document == [] && dataAccessPolicy.grants == [] && dataAccessPolicy.policy == JArr([])
      ensures dataAccessPolicy.account == account && dataAccessPolicy.region == region
      ensures dataAccessPolicy.name == ToLowerAscii(policyUniqueName)
      ensures encryptionPolicy == EncryptionPolicyFor(name, props.kmsKey)
      ensures networkPolicy == NetworkPolicyFor(props, name)
      ensures apiGrants == []
    {
      var settings := SettingsFor(props, scopeUniqueId);
      description := settings.description;
      name := settings.name;
      standbyReplicas := settings.standbyReplicas;
      tags := settings.tags;
      collectionType := settings.collectionType;
      dataAccessPolicy := new OpenSearchDataAccessPolicy(policyUniqueName, settings.name, account, region);
      encryptionPolicy := EncryptionPolicyFor(settings.name, props.kmsKey);
      networkPolicy := NetworkPolicyFor(props, settings.name);
      apiGrants := [];
    }

    /** `grantApiAccess`: adds `aoss:APIAccessAll` on every resource to the principal. */
    method GrantApiAccess(principal: Principal) returns (g: ApiGrant)
      modifies this
      ensures g == ApiAccessGrant(principal) && g.actions == ["aoss:APIAccessAll"] && g.resourceArns == ["*"]
      ensures apiGrants == old(apiGrants) + [g]
    {
      g := ApiAccessGrant(principal);
      apiGrants := apiGrants + [g];
    }

    /**
     * `grantReadWrite`: a read-write statement in the data-access policy, then
     * the API grant. A principal without an ARN throws before either happens.
     */
    method GrantReadWrite(principal: Principal) returns (r: Result<ApiGrant, ResolveError>)
      requires Valid()
      modifies this, dataAccessPolicy
      ensures Valid()
      ensures match ArnFromPrincipal(principal, dataAccessPolicy.account)
        case Failure(e) =>
          && r == Failure(e) && apiGrants == old(apiGrants)
          && dataAccessPolicy.document == old(dataAccessPolicy.document)
          && dataAccessPolicy.policy == old(dataAccessPolicy.policy)
          && dataAccessPolicy.grants == old(dataAccessPolicy.grants)
        case Success(arn) =>
          && r == Success(ApiAccessGrant(principal))
          && apiGrants == old(apiGrants) + [ApiAccessGrant(principal)]
          && dataAccessPolicy.document == old(dataAccessPolicy.document) + [StatementFor(ReadWrite, name, arn)]
          && dataAccessPolicy.grants == old(dataAccessPolicy.grants) + [(ReadWrite, arn)]
    {
      var granted := dataAccessPolicy.GrantReadWrite(principal);
      if granted.Fail? {
        return Failure(granted.error);
      }
      var g := GrantApiAccess(principal);
      r := Success(g);
    }

    /**
     * `grantRead`: it forwards to the data-access policy's read-write grant, so
     * a read grant on the collection gives the same statement as a read-write one.
     */
    method GrantRead(principal: Principal) returns (r: Result<ApiGrant, ResolveError>)
      requires Valid()
      modifies this, dataAccessPolicy
      ensures Valid()
      ensures match ArnFromPrincipal(principal, dataAccessPolicy.account)
        case Failure(e) =>
          && r == Failure(e) && apiGrants == old(apiGrants)
          && dataAccessPolicy.document == old(dataAccessPolicy.document)
          && dataAccessPolicy.policy == old(dataAccessPolicy.policy)
          && dataAccessPolicy.grants == old(dataAccessPolicy.grants)
        case Success(arn) =>
          && r == Success(ApiAccessGrant(principal))
          && apiGrants == old(apiGrants) + [ApiAccessGrant(principal)]
          && dataAccessPolicy.document == old(dataAccessPolicy.document) + [StatementFor(ReadWrite, name, arn)]
          && dataAccessPolicy.grants == old(dataAccessPolicy.grants) + [(ReadWrite, arn)]
    {
      var granted := dataAccessPolicy.GrantReadWrite(principal);
      if granted.Fail? {
        return Failure(granted.error);
      }
      var g := GrantApiAccess(principal);
      r := Success(g);
    }
  }
}
