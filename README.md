# cdk-knowledge-base-construct in Dafny

This project models the logic core of a CDK construct library that sets up a
Bedrock knowledge base on an OpenSearch Serverless vector collection. It
covers five parts:

- **The data-access policy** (`DataAccessPolicy`). It is an append-only list of
  grant statements, and the published `policy` is re-serialised after every
  grant. The resolver that turns an IAM principal into the ARN a statement
  names is also here. That resolver is an ordered, first-match dispatch over
  principal classes, with one recursive case through `grantPrincipal`, a
  fallback to a string `arn` property, and a thrown error.
- **The collection construct** (`Collection`). It derives its settings and
  defaults from its props. It always builds an encryption policy and builds a
  network policy when asked. Its grants are forwarded to its data-access
  policy, and it adds `aoss:APIAccessAll` to the grantee.
- **The index custom-resource handler** (`IndexHandler`). Create and Update
  create the index and Delete deletes it. Every failure of the index store is
  logged and swallowed, and the answer is always `SUCCESS`. The index store is
  abstract state: a set of index names plus a log of the calls it received.
  Call failures are inputs (`Faults`), so every outcome is covered.
- **The index construct** (`IndexConstruct`). It fixes the field names,
  composes the construct id and builds the property bag the handler receives.
  It also gives the handler's role read-write access to the collection.
- **The ingestion trigger** (`StartSync`, `IngestionCustomResource`). The
  scheduled function checks its event against a schema and starts exactly one
  ingestion job. The custom resource runs it on Create only. There is no
  catch, so a failure propagates.

JSON serialisation is modelled as a JSON value tree (`Json`), not as text.
Objects keep their insertion order, as JavaScript does for keys that are not
array indexes. Assigning to a key that is already present keeps its position, and `undefined` values are left out, as
`JSON.stringify` does. The policy document can be decoded back from its
serialisation, so no two documents publish the same policy.

The model keeps these behaviours of the code as written:

- The collection's `grantRead` forwards to the policy's `grantReadWrite`, so a
  read grant on the collection gives a read-write statement.
- The index handler takes the response's physical id from the property
  `INDEX_NAME`. The index construct never sets that property. So for every
  event whose bag holds the construct's properties and no `INDEX_NAME`, the
  physical id is absent, whatever other keys (such as `ServiceToken`) the bag
  holds (`IndexConstruct.HandlerReadsConstructProperties`).
- The handler's guard against an existing index is commented out, so a create
  call is issued even when the index exists. That call then fails with
  "already exists", and the failure is logged.
- The mapping is an object literal with computed keys. When field names
  coincide, a later mapping replaces an earlier one. The construct's vector
  field is the index name, so an index named `METADATA` or `TEXT_CHUNK` loses
  that field's own mapping (`IndexConstruct.ConstructMappings`).
- Whether a network policy exists follows JavaScript truthiness. Any
  `sourceServices` or `vpcEndpoints` array triggers it, even an empty one.
  `sourceServices` affects only that condition, never the policy body.

- The resolver recurses through `grantPrincipal` before it looks at `arn`. An
  object of no known class whose `grantPrincipal` is the object itself has the
  recursion call itself on that same object until the stack overflows, whatever
  `arn` it has. The model represents this as the error `StackOverflow`.
  `iam.IPrincipal` is a grantable, so every typed argument has
  `grantPrincipal`. The `arn` fallback and the "Unable to extract ARN" error
  are reached only by an object without that property
  (`DataAccessPolicy.ArnFallbackNeedsNoGrant`).

The commented-out handler in
`lib/constructs/open-search/open-search-index.handler.ts` (lines 143-238)
behaved differently. Only the live handler is modelled:

- It created the index only when it was absent (lines 226-231). The live
  handler's guard (lines 58-60) is commented out.
- It answered with the index name as physical id (lines 167 and 178). The
  live handler reads `INDEX_NAME`.

The modules, one per file:

- `Wrappers` (`wrappers.dfy`): `Option`, `Result`, `Outcome`.
- `Json` (`json.dfy`): JSON values, member lookup and assignment.
- `Text` (`text.dfy`): ASCII lower-casing and the decimal rendering of numbers.
- `DataAccessPolicy` (`data_access_policy.dfy`).
- `Collection` (`open_search_collection.dfy`).
- `CustomResourceEvents` (`custom_resource_events.dfy`): the custom-resource event and response.
- `IndexHandler` (`open_search_index_handler.dfy`).
- `IndexConstruct` (`open_search_index.dfy`).
- `StartSync` (`start_sync.dfy`).
- `IngestionCustomResource` (`ingestion_custom_resource.dfy`).

## Model

| member | source | states |
|---|---|---|
| Text.ToLowerAscii | lib/constructs/open-search/open-search-collection.ts:82 | the lower-cased name has the same length, maps each character through ASCII lower-casing and contains no upper-case letter |
| Text.ParseNatToString | lib/constructs/open-search/open-search-index.ts:44 | the decimal rendering of a number in a template literal can be read back as that number |
| Text.NatToStringInjective | lib/constructs/open-search/open-search-index.ts:44 | different dimensions render as different decimal strings |
| DataAccessPolicy.CollectionReadWriteExtendsRead | lib/constructs/open-search/open-search-data-access-policy.ts:21-30 | the collection read-write list starts with the whole read list, and Create/Delete/UpdateCollectionItems and `aoss:*` are in it but not in the read list |
| DataAccessPolicy.IndexReadWriteExtendsRead | lib/constructs/open-search/open-search-data-access-policy.ts:32-43 | the index read-write list starts with the whole read list, and CreateIndex, WriteDocument, DeleteIndex and UpdateIndex are in it but not in the read list |
| DataAccessPolicy.ArnFromPrincipal | lib/constructs/open-search/open-search-data-access-policy.ts:115-156 | the ARN each principal class gives (account root ARN, verbatim ARN, service-role ARN in the stack's account, own role/user/group ARN); an object of no known class that is its own `grantPrincipal` overflows the stack whatever its `arn`; one without `grantPrincipal` gives its `arn` property or throws; resolution fails exactly when the innermost wrapped principal has no known class and either is its own `grantPrincipal` or has no `arn` |
| DataAccessPolicy.ArnFromInnermost | lib/constructs/open-search/open-search-data-access-policy.ts:143-153 | resolution equals following `grantPrincipal` to the innermost principal, then resolving that one on its own properties |
| DataAccessPolicy.WrappedResolvesAsInner | lib/constructs/open-search/open-search-data-access-policy.ts:143-146 | wrapping a principal in any number of grantable objects, whatever `arn` they expose, never changes the resolved ARN |
| DataAccessPolicy.KnownKindBeatsFallback | lib/constructs/open-search/open-search-data-access-policy.ts:116-153 | a principal of a known class resolves by its class whatever its `grantPrincipal` and `arn` are: the first matching case wins |
| DataAccessPolicy.ArnFallbackNeedsNoGrant | lib/constructs/open-search/open-search-data-access-policy.ts:143-155 | at the end of a chain of objects of no known class, resolution succeeds exactly when the last object has no `grantPrincipal` and has an `arn`, and then gives that `arn` |
| DataAccessPolicy.StatementFor | lib/constructs/open-search/open-search-data-access-policy.ts:74-110 | a statement has two rules and a one-element principal list holding the ARN; a read statement targets `collection/<name>` in both rules, a read-write statement targets `index/<name>/*` in its index rule, each with its own permission list |
| DataAccessPolicy.StatementsFor | lib/constructs/open-search/open-search-data-access-policy.ts:74-113 | the document after a sequence of grants has one statement per grant, in call order, each the statement of that grant |
| DataAccessPolicy.RuleRoundTrip | lib/constructs/open-search/open-search-data-access-policy.ts:76-87 | a serialised rule decodes back to the same rule |
| DataAccessPolicy.RulesRoundTrip | lib/constructs/open-search/open-search-data-access-policy.ts:76-87 | a serialised list of rules decodes back to the same list |
| DataAccessPolicy.StatementRoundTrip | lib/constructs/open-search/open-search-data-access-policy.ts:75-89 | a serialised statement decodes back to the same statement |
| DataAccessPolicy.StatementsRoundTrip | lib/constructs/open-search/open-search-data-access-policy.ts:91 | a serialised statement list decodes back to the same list |
| DataAccessPolicy.DocumentRoundTrip | lib/constructs/open-search/open-search-data-access-policy.ts:91 | the published policy decodes back to the whole document |
| DataAccessPolicy.EncodeDocumentInjective | lib/constructs/open-search/open-search-data-access-policy.ts:112 | two different documents never publish the same policy |
| DataAccessPolicy.OpenSearchDataAccessPolicy.constructor | lib/constructs/open-search/open-search-data-access-policy.ts:52-72 | the name is the lower-cased unique resource name, the type is `data`, the document is empty and the policy is the serialisation of `[]`; the invariant holds |
| DataAccessPolicy.OpenSearchDataAccessPolicy.Grant | lib/constructs/open-search/open-search-data-access-policy.ts:74-113 | on a resolvable principal exactly one statement is appended and earlier ones are kept; on an unresolvable one the call fails and document and policy are unchanged; afterwards the policy is the serialisation of the document |
| DataAccessPolicy.OpenSearchDataAccessPolicy.GrantRead | lib/constructs/open-search/open-search-data-access-policy.ts:74-92 | appends the read statement for the resolved ARN, or fails and changes nothing |
| DataAccessPolicy.OpenSearchDataAccessPolicy.GrantReadWrite | lib/constructs/open-search/open-search-data-access-policy.ts:94-113 | appends the read-write statement for the resolved ARN, or fails and changes nothing |
| Collection.SettingsFor | lib/constructs/open-search/open-search-collection.ts:80-86 | the name defaults to the lower-cased unique id, standby replicas default to `DISABLED` and the type to `VECTORSEARCH`; description and tags are passed through |
| Collection.EncryptionPolicyFor | lib/constructs/open-search/open-search-collection.ts:96-113 | the encryption policy has one rule over `collection/<name>`; `AWSOwnedKey` is true exactly when no key is given; `KmsARN` is the key's ARN when one is given and absent otherwise |
| Collection.EndpointIds | lib/constructs/open-search/open-search-collection.ts:134-136 | the endpoint ids, one per endpoint, in input order |
| Collection.NetworkPolicyEntry | lib/constructs/open-search/open-search-collection.ts:121-138 | `AllowFromPublic` is the flag and false when it is absent; the rules are dashboard then collection over `collection/<name>`; `SourceVPCEndpoints` lists the endpoint ids and is absent without endpoints |
| Collection.NetworkPolicyFor | lib/constructs/open-search/open-search-collection.ts:117-140 | a network policy exists exactly when public access is true or a source-service or endpoint list is given, and then holds the single entry above |
| Collection.SourceServicesOnlyGate | lib/constructs/open-search/open-search-collection.ts:117-138 | when a network policy exists, changing `sourceServices` never changes it |
| Collection.OpenSearchCollection.constructor | lib/constructs/open-search/open-search-collection.ts:75-141 | the settings are those derived from the props, the data-access policy is fresh and empty, the encryption and network policies are the derived ones |
| Collection.OpenSearchCollection.GrantApiAccess | lib/constructs/open-search/open-search-collection.ts:154-162 | adds `aoss:APIAccessAll` on `*` for the principal |
| Collection.OpenSearchCollection.GrantReadWrite | lib/constructs/open-search/open-search-collection.ts:143-147 | appends a read-write statement and then adds the API grant; an unresolvable principal changes nothing |
| Collection.OpenSearchCollection.GrantRead | lib/constructs/open-search/open-search-collection.ts:149-152 | appends a read-write statement, never a read-only one, and adds the API grant; an unresolvable principal changes nothing |
| IndexHandler.ConfigurationOf | lib/constructs/open-search/open-search-index.handler.ts:110-120 | the configuration holds exactly the five properties of the bag |
| IndexHandler.MappingProperties | lib/constructs/open-search/open-search-index.handler.ts:70-90 | the mapping's keys are the three field names; the vector field always has the k-NN mapping of the given dimension (hnsw, l2, faiss); the text field has the indexed text mapping and the metadata field the stored-only text mapping unless a later field has the same name |
| IndexHandler.CreateIndexBody | lib/constructs/open-search/open-search-index.handler.ts:62-92 | the create body sets `settings.index.knn` to true and holds the field mappings under `mappings.properties` |
| IndexHandler.IndexStore.Exists | lib/constructs/open-search/open-search-index.handler.ts:55-57 | the existence check is logged, answers whether the index is held and changes no index |
| IndexHandler.IndexStore.Create | lib/constructs/open-search/open-search-index.handler.ts:62-92 | the create call is logged; it adds the index unless it fails or the index exists |
| IndexHandler.IndexStore.Delete | lib/constructs/open-search/open-search-index.handler.ts:99 | the delete call is logged; it removes the index unless it fails or the index is absent |
| IndexHandler.CreateIndexEffect | lib/constructs/open-search/open-search-index.handler.ts:47-96 | a failing existence check makes no create call; otherwise exactly one create call follows, whatever the check answered; only the named index can be added; nothing is logged exactly when the index was absent and no call failed |
| IndexHandler.DeleteIndexEffect | lib/constructs/open-search/open-search-index.handler.ts:97-103 | exactly one delete call for the index name; without a fault the index is gone; nothing is logged exactly when the index was present and the call did not fail |
| IndexHandler.HandleEffect | lib/constructs/open-search/open-search-index.handler.ts:110-128 | Create and Update both create from the bag's configuration; Delete deletes the bag's `indexName` |
| IndexHandler.IndexResponse | lib/constructs/open-search/open-search-index.handler.ts:130-136 | the answer is `SUCCESS`, echoes request id, logical id and stack id, takes its physical id from `INDEX_NAME` and carries no data |
| IndexHandler.CreateTwiceIsStable | lib/constructs/open-search/open-search-index.handler.ts:55-62 | a second Create of the same index leaves the store as it was and logs "already exists" |
| IndexHandler.DeleteOfAbsentIsHarmless | lib/constructs/open-search/open-search-index.handler.ts:97-103 | a Delete of an absent index changes nothing and logs an error |
| IndexHandler.Handler.CreateIndex | lib/constructs/open-search/open-search-index.handler.ts:47-96 | the store's calls, its indices and the logged error are those of the create effect |
| IndexHandler.Handler.DeleteIndex | lib/constructs/open-search/open-search-index.handler.ts:97-103 | the store's calls, its indices and the logged error are those of the delete effect |
| IndexHandler.Handler.Handle | lib/constructs/open-search/open-search-index.handler.ts:106-137 | whatever the store does, the handler returns the `SUCCESS` response, and the store ends as the dispatch says |
| IndexConstruct.ConstructIdEndsWithDimension | lib/constructs/open-search/open-search-index.ts:44 | the construct id starts with the given id and a dash, and ends with a dash and the decimal digits of the dimension, which read back as the dimension |
| IndexConstruct.IndexCreationProperties | lib/constructs/open-search/open-search-index.ts:78-85 | the bag has exactly the keys `indexName`, `dimensions`, `metadataField`, `textField`, `vectorField` and `val`, with the vector field the index name, `val` 2, and no `INDEX_NAME` |
| IndexConstruct.HandlerReadsConstructProperties | lib/constructs/open-search/open-search-index.ts:78-85 | the index handler accepts every event whose bag holds the construct's six properties, whatever other keys it holds, and reads back the index name, the dimension, `METADATA`, `TEXT_CHUNK` and the index name as vector field; without an `INDEX_NAME` key it answers with no physical id |
| IndexConstruct.ConstructMappings | lib/constructs/open-search/open-search-index.ts:79-83 | with the construct's field names the index name maps to the vector mapping; the metadata and text fields keep their own mappings unless the index is named like them, in which case only two fields remain |
| IndexConstruct.OpenSearchIndex.constructor | lib/constructs/open-search/open-search-index.ts:37-91 | the fields are `METADATA`, `TEXT_CHUNK` and the index name; the id and the property bag are as above; one read-write statement for the handler's role and one API grant are appended to the collection |
| IndexConstruct.OpenSearchIndex.GrantReadWrite | lib/constructs/open-search/open-search-index.ts:93-95 | exactly the collection's read-write grant |
| StartSync.ParseEvent | lib/constructs/knowledge-base/start-ingestion-job/start-sync.ts:10-22 | an event passes exactly when `knowledgeBaseId` and `dataSourceId` are strings, and the parsed event holds those strings |
| StartSync.ParseScheduledEvent | lib/constructs/knowledge-base/data-source.ts:144-147 | the event the schedule rule sends passes the schema with its two ids |
| StartSync.Handler | lib/constructs/knowledge-base/start-ingestion-job/start-sync.ts:22-33 | a rejected event makes no call; an accepted one makes exactly one call with its ids unchanged; the run succeeds exactly when the event passes and the call does not fail, and a failed call surfaces |
| IngestionCustomResource.TriggerResponse | lib/constructs/knowledge-base/start-ingestion-job/custom-resource.ts:22-29 | the answer is `SUCCESS`, echoes request id, logical id and stack id, takes the data source id as physical id and has empty data |
| IngestionCustomResource.Handler | lib/constructs/knowledge-base/start-ingestion-job/custom-resource.ts:11-30 | Update and Delete make no call and answer; Create makes the trigger's calls and answers exactly when the trigger succeeds; a failure happens only on Create and is the trigger's own |
| IngestionCustomResource.CreateStartsOneJob | lib/constructs/knowledge-base/start-ingestion-job/custom-resource.ts:18-20 | a Create with a valid bag starts exactly one job for the bag's own ids |
| IngestionCustomResource.ResponseIgnoresRequestType | lib/constructs/knowledge-base/start-ingestion-job/custom-resource.ts:15-29 | the status, physical id and data of the answer are the same for every request type |

## Left out

- The text of `JSON.stringify`: serialisation is a JSON value tree. The model proves it injective through decoding, not byte for byte.
- CloudFormation delivers custom-resource property values as strings, and the handler converts `dimensions` back with `Number(...)`. Neither step is modelled: `dimensions` is a number in the bag. Floating-point values and `NaN` are not represented.
- Text.ToLowerAscii: lower-cases ASCII letters only. Unicode case mapping is not modelled.
- The framework calls `Names.uniqueId`, `Names.uniqueResourceName` (with its 31-character limit) and `Stack.of(...)`. The model takes their results as parameters.
- The effect of `iam.Grant.addToPrincipal` on the principal's identity policy is not modelled. The collection records each grant in its `apiGrants` list instead.
- The CDK dependency ordering (`addDependency`) is not modelled.
- The OpenSearch client setup, SigV4 signing, the credential provider and the environment-variable reads of the index handler are not modelled. The endpoint and region are opaque fields of `IndexStore`.
- The function, provider, log-group and log-retention wiring of the index construct is not modelled. The handler role's ARN is a constructor parameter.
- Loggers, `injectLambdaContext` and the mechanics of the `@parser` decorator are not modelled. Only the schema predicate and the logged error are.
- IndexHandler.Handler.Handle: requires the property bag to hold `indexName` as a string, plus, for Create and Update, `dimensions` as a number and the three field names as strings. The code does not check these. Every bag that holds the construct's properties meets them, whatever else it holds (`IndexConstruct.HandlerReadsConstructProperties`). What the code would send with a missing or mistyped field is not modelled.
- The event fields `ResponseURL`, `ResourceType` and `OldResourceProperties` are not modelled, because no handler reads them. The `ServiceToken` that CloudFormation adds to the property bag is an ordinary extra key of the bag.
- The commented-out legacy index handler is not live code and is not modelled.
- The principal classes of aws-cdk-lib are not part of this model. Which objects have `grantPrincipal` set to themselves is an input (`SelfGrant`). In aws-cdk-lib these are the role imported by `Role.fromRoleArn`, and the principals derived from the principal base class: `FederatedPrincipal`, `OrganizationPrincipal`, `CompositePrincipal`, `WebIdentityPrincipal` and `PrincipalWithConditions`. The source overflows its stack on them, and the model returns `StackOverflow`. The roles, users, groups and the account, ARN and service principals are matched by their class first.
- Json.Put, IndexHandler.MappingProperties: member order is insertion order. JavaScript instead lists keys that are array indexes first, in ascending order. For an index named like `2024`, the vector field comes first in the source's `mappings.properties`, but last in the model. The keys and their values are the same.
- Text.NatToString: gives plain decimal digits. JavaScript's `${n}` switches to exponent notation from 10^21 on, which is not modelled.
- Zod's schema rejects non-string ids. The model represents the rejection as the error `SchemaRejected` and does not model the message.
- `async`/`await` is not modelled: each handler is a sequence of awaited calls without concurrency.
- The knowledge-base, data-source and stack constructs and the Lambda helper are declarative resource wiring. They are not part of this model, except for the scheduled event that `StartSync.ParseScheduledEvent` reads.
