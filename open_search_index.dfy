/**
 * The index construct: fixed field names, the property bag it hands to the
 * index handler through a custom resource, its construct id, and the
 * read-write grant it gives the handler's role on the collection.
 */
module IndexConstruct {
  import opened Wrappers
  import opened Json
  import opened Text
  import opened DataAccessPolicy
  import opened Collection
  import opened CustomResourceEvents
  import opened IndexHandler

  const MetadataFieldName: string := "METADATA"

  const TextFieldName: string := "TEXT_CHUNK"

  /** The construct id: the given id, the collection's unique id, the index name and the dimension. */
  function ConstructId(id: string, collectionUniqueId: string, indexName: string, vectorDimension: nat): string
  {
    id + "-" + collectionUniqueId + "-" + indexName + "-" + NatToString(vectorDimension)
  }

  /** The construct id starts with the given id and ends with the dimension, which can be read back from it. */
  lemma ConstructIdEndsWithDimension(id: string, collectionUniqueId: string, indexName: string, vectorDimension: nat)
    ensures var cid := ConstructId(id, collectionUniqueId, indexName, vectorDimension);
            var digits := |NatToString(vectorDimension)|;
            && cid[..|id| + 1] == id + "-"
            && cid[|cid| - digits - 1] == '-'
            && IsDigits(cid[|cid| - digits..])
            && ParseNat(cid[|cid| - digits..]) == vectorDimension
  {
    var cid := ConstructId(id, collectionUniqueId, indexName, vectorDimension);
    var n := NatToString(vectorDimension);
    assert cid == (id + "-" + collectionUniqueId + "-" + indexName + "-") + n;
    assert cid[|cid| - |n|..] == n;
    ParseNatToString(vectorDimension);
  }

  /** The custom-resource properties: six keys, the vector field named after the index, and no `INDEX_NAME`. */
  function IndexCreationProperties(indexName: string, vectorDimension: nat): (bag: map<string, Json>)
    ensures bag.Keys == {"indexName", "dimensions", "metadataField", "textField", "vectorField", "val"}
    ensures "INDEX_NAME" !in bag
    ensures bag["indexName"] == JStr(indexName) && bag["vectorField"] == JStr(indexName)
    ensures bag["dimensions"] == JNum(vectorDimension) && bag["val"] == JNum(2)
    ensures bag["metadataField"] == JStr(MetadataFieldName) && bag["textField"] == JStr(TextFieldName)
  {
    map[
      "indexName" := JStr(indexName),
      "dimensions" := JNum(vectorDimension),
      "metadataField" := JStr(MetadataFieldName),
      "textField" := JStr(TextFieldName),
      "vectorField" := JStr(indexName),
      "val" := JNum(2)]
  }

  /**
   * The handler accepts every event whose bag carries the construct's
   * properties, whatever else CloudFormation adds to it (the `ServiceToken`
   * among them). It reads back the construct's fields and, as long as nothing
   * adds `INDEX_NAME`, answers with no physical id.
   */
  lemma HandlerReadsConstructProperties(event: CfnEvent, indexName: string, vectorDimension: nat)
    requires forall k :: k in IndexCreationProperties(indexName, vectorDimension) ==>
               k in event.resourceProperties
               && event.resourceProperties[k] == IndexCreationProperties(indexName, vectorDimension)[k]
    requires "INDEX_NAME" !in event.resourceProperties
    ensures HandlerAccepts(event)
    ensures ConfigurationOf(event.resourceProperties)
            == IndexConfiguration(indexName, vectorDimension, MetadataFieldName, TextFieldName, indexName)
    ensures IndexResponse(event).physicalResourceId == None
  {
    var bag := IndexCreationProperties(indexName, vectorDimension);
    assert "indexName" in bag && "dimensions" in bag && "metadataField" in bag
           && "textField" in bag && "vectorField" in bag;
  }

  /**
   * With the construct's field names the mapping holds all three fields, unless
   * the index is named like one of the fixed fields: then the vector mapping
   * replaces that field's mapping and only two fields remain.
   */
  lemma ConstructMappings(indexName: string, vectorDimension: nat)
    ensures var m := MappingProperties(IndexConfiguration(indexName, vectorDimension, MetadataFieldName, TextFieldName, indexName));
            && Lookup(m, indexName) == Some(VectorMapping(vectorDimension))
            && (indexName != MetadataFieldName ==> Lookup(m, MetadataFieldName) == Some(MetadataMapping))
            && (indexName != TextFieldName ==> Lookup(m, TextFieldName) == Some(TextMapping))
            && (indexName == MetadataFieldName || indexName == TextFieldName ==> |Keys(m)| == 2)
  {
    var m := MappingProperties(IndexConfiguration(indexName, vectorDimension, MetadataFieldName, TextFieldName, indexName));
    if indexName == MetadataFieldName || indexName == TextFieldName {
      assert Keys(m) == {MetadataFieldName, TextFieldName};
      assert MetadataFieldName != TextFieldName;
    }
  }

  /** The execution role of a function: an IAM role, which is its own `grantPrincipal`. */
  function RolePrincipal(roleArn: string): Principal
  {
    Principal(Role(roleArn), SelfGrant, None)
  }

  /** `OpenSearchIndex`. */
  class OpenSearchIndex {
    const metadataField: string
    const textField: string
    const vectorField: string
    const collection: OpenSearchCollection
    const indexName: string
    const id: string
    const indexCreationProperties: map<string, Json>
    const handlerRole: Principal

    /**
     * `collectionUniqueId` stands for the framework's unique id of the
     * collection, `handlerRoleArn` for the ARN of the handler function's role.
     * The grant to that role is appended to the collection's data-access policy.
     */
    constructor (id: string, indexName: string, vectorDimension: nat, collection: OpenSearchCollection,
                 collectionUniqueId: string, handlerRoleArn: string)
      requires collection.Valid()
      modifies collection, collection.dataAccessPolicy
      ensures collection.Valid() && this.collection == collection
      ensures metadataField == MetadataFieldName && textField == TextFieldName
      ensures this.indexName == indexName && vectorField == indexName
      ensures this.id == ConstructId(id, collectionUniqueId, indexName, vectorDimension)
      ensures indexCreationProperties == IndexCreationProperties(indexName, vectorDimension)
      ensures handlerRole == RolePrincipal(handlerRoleArn)
      ensures collection.dataAccessPolicy.document
              == old(collection.dataAccessPolicy.document) + [StatementFor(ReadWrite, collection.name, handlerRoleArn)]
      ensures collection.apiGrants == old(collection.apiGrants) + [ApiAccessGrant(RolePrincipal(handlerRoleArn))]
    {
      this.id := ConstructId(id, collectionUniqueId, indexName, vectorDimension);
      metadataField := MetadataFieldName;
      textField := TextFieldName;
      vectorField := indexName;
      this.collection := collection;
      this.indexName := indexName;
      indexCreationProperties := IndexCreationProperties(indexName, vectorDimension);
      handlerRole := RolePrincipal(handlerRoleArn);
      new;
      var grant := collection.GrantReadWrite(RolePrincipal(handlerRoleArn));
    }

    /** `grantReadWrite`: exactly the collection's read-write grant. */
    method GrantReadWrite(principal: Principal) returns (r: Result<ApiGrant, ResolveError>)
      requires collection.Valid()
      modifies collection, collection.dataAccessPolicy
      ensures collection.Valid()
      ensures match ArnFromPrincipal(principal, collection.dataAccessPolicy.account)
        case Failure(e) =>
          && r == Failure(e) && collection.apiGrants == old(collection.apiGrants)
          && collection.dataAccessPolicy.document == old(collection.dataAccessPolicy.document)
          && collection.dataAccessPolicy.policy == old(collection.dataAccessPolicy.policy)
        case Success(arn) =>
          && r == Success(ApiAccessGrant(principal))
          && collection.apiGrants == old(collection.apiGrants) + [ApiAccessGrant(principal)]
          && collection.dataAccessPolicy.document
             == old(collection.dataAccessPolicy.document) + [StatementFor(ReadWrite, collection.name, arn)]
    {
      r := collection.GrantReadWrite(principal);
    }
  }
}
