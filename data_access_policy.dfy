/**
 * The OpenSearch Serverless data-access policy of one collection: an
 * append-only list of grant statements, republished as a whole after every
 * grant, and the resolution of IAM principals to the ARN strings the
 * statements name.
 */
module DataAccessPolicy {
  import opened Wrappers
  import opened Json
  import opened Text

  // ---------------------------------------------------------------------
  // Permission lists
  // ---------------------------------------------------------------------

  const CollectionReadPermissions: seq<string> := ["aoss:DescribeCollectionItems"]

  const CollectionWriteExtras: seq<string> :=
    ["aoss:CreateCollectionItems", "aoss:DeleteCollectionItems", "aoss:UpdateCollectionItems", "aoss:*"]

  const CollectionReadWritePermissions: seq<string> := CollectionReadPermissions + CollectionWriteExtras

  const IndexReadPermissions: seq<string> := ["aoss:DescribeIndex", "aoss:ReadDocument"]

  const IndexWriteExtras: seq<string> :=
    ["aoss:CreateIndex", "aoss:WriteDocument", "aoss:DeleteIndex", "aoss:UpdateIndex"]

  const IndexReadWritePermissions: seq<string> := IndexReadPermissions + IndexWriteExtras

  /** The read-write list on collections starts with the whole read list and strictly adds to it. */
  lemma CollectionReadWriteExtendsRead()
    ensures CollectionReadWritePermissions[..|CollectionReadPermissions|] == CollectionReadPermissions
    ensures forall p :: p in CollectionReadPermissions ==> p in CollectionReadWritePermissions
    ensures forall p :: p in CollectionWriteExtras ==> p in CollectionReadWritePermissions && p !in CollectionReadPermissions
  {
  }

  /** The read-write list on indexes starts with the whole read list and strictly adds to it. */
  lemma IndexReadWriteExtendsRead()
    ensures IndexReadWritePermissions[..|IndexReadPermissions|] == IndexReadPermissions
    ensures forall p :: p in IndexReadPermissions ==> p in IndexReadWritePermissions
    ensures forall p :: p in IndexWriteExtras ==> p in IndexReadWritePermissions && p !in IndexReadPermissions
  {
  }

  // ---------------------------------------------------------------------
  // Principals and their ARNs
  // ---------------------------------------------------------------------

  /** The IAM principal classes the resolver tests with `instanceof`, and every other class. */
  datatype PrincipalKind =
    | AccountPrincipal(accountId: string)
    | ArnPrincipal(principalArn: string)
    | ServicePrincipal(service: string)
    | Role(roleArn: string)
    | User(userArn: string)
    | Group(groupArn: string)
    | OtherKind

  /**
   * The `grantPrincipal` property of a principal object: absent, the object
   * itself (as IAM's principal base class and the role imported by ARN set
   * it), or another principal.
   */
  datatype GrantPrincipal = NoGrant | SelfGrant | Grants(inner: Principal)

  /** A principal object: its class, its `grantPrincipal` property, and its `arn` property if that is a string. */
  datatype Principal = Principal(kind: PrincipalKind, grantPrincipal: GrantPrincipal, arn: Option<string>)

  /**
   * `UnableToExtractArn` is the error the resolver throws; `StackOverflow` is
   * the `RangeError` of its recursion on an object that is its own
   * `grantPrincipal`.
   */
  datatype ResolveError = UnableToExtractArn | StackOverflow

  /**
   * `getArnFromPrincipal`: the cases are tried in order and the first that
   * applies gives the ARN; a principal that fits none throws.
   */
  function ArnFromPrincipal(p: Principal, stackAccount: string): (r: Result<string, ResolveError>)
    ensures p.kind.AccountPrincipal? ==> r == Success("arn:aws:iam::" + p.kind.accountId + ":root")
    ensures p.kind.ArnPrincipal? ==> r == Success(p.kind.principalArn)
    ensures p.kind.ServicePrincipal? ==>
              r == Success("arn:aws:iam::" + stackAccount + ":role/service-role/" + p.kind.service)
    ensures p.kind.Role? ==> r == Success(p.kind.roleArn)
    ensures p.kind.User? ==> r == Success(p.kind.userArn)
    ensures p.kind.Group? ==> r == Success(p.kind.groupArn)
    ensures p.kind.OtherKind? && p.grantPrincipal.SelfGrant? ==> r == Failure(StackOverflow)
    ensures p.kind.OtherKind? && p.grantPrincipal.NoGrant? ==>
              r == (if p.arn.Some? then Success(p.arn.value) else Failure(UnableToExtractArn))
    ensures r.Failure? <==>
              Innermost(p).kind.OtherKind? && (Innermost(p).grantPrincipal.SelfGrant? || Innermost(p).arn.None?)
    decreases p
  {
    match p.kind
    case AccountPrincipal(id) => Success("arn:aws:iam::" + id + ":root")
    case ArnPrincipal(a) => Success(a)
    case ServicePrincipal(s) => Success("arn:aws:iam::" + stackAccount + ":role/service-role/" + s)
    case Role(a) => Success(a)
    case User(a) => Success(a)
    case Group(a) => Success(a)
    case OtherKind =>
      match p.grantPrincipal
      case Grants(q) => ArnFromPrincipal(q, stackAccount)
      case SelfGrant => Failure(StackOverflow)
      case NoGrant => if p.arn.Some? then Success(p.arn.value) else Failure(UnableToExtractArn)
  }

  /** The principal reached by following `grantPrincipal` to other objects of no known class. */
  function Innermost(p: Principal): (q: Principal)
    ensures q.kind.OtherKind? ==> !q.grantPrincipal.Grants?
    decreases p
  {
    if p.kind.OtherKind? && p.grantPrincipal.Grants? then Innermost(p.grantPrincipal.inner) else p
  }

  /** Resolution of a principal on its own properties, without following `grantPrincipal` to another object. */
  function DirectArn(p: Principal, stackAccount: string): Result<string, ResolveError>
  {
    match p.kind
    case AccountPrincipal(id) => Success("arn:aws:iam::" + id + ":root")
    case ArnPrincipal(a) => Success(a)
    case ServicePrincipal(s) => Success("arn:aws:iam::" + stackAccount + ":role/service-role/" + s)
    case Role(a) => Success(a)
    case User(a) => Success(a)
    case Group(a) => Success(a)
    case OtherKind =>
      if p.grantPrincipal.SelfGrant? then Failure(StackOverflow)
      else if p.arn.Some? then Success(p.arn.value)
      else Failure(UnableToExtractArn)
  }

  /** Resolution is unwrapping followed by resolution of the unwrapped principal. */
  lemma {:induction false} ArnFromInnermost(p: Principal, stackAccount: string)
    ensures ArnFromPrincipal(p, stackAccount) == DirectArn(Innermost(p), stackAccount)
    decreases p
  {
    if p.kind.OtherKind? && p.grantPrincipal.Grants? {
      ArnFromInnermost(p.grantPrincipal.inner, stackAccount);
    }
  }

  /**
   * The `arn` fallback is reached only at the end of a chain of objects of no
   * known class whose last one has no `grantPrincipal` at all: an object that
   * has the property never yields its own `arn`.
   */
  lemma {:induction false} ArnFallbackNeedsNoGrant(p: Principal, stackAccount: string)
    requires Innermost(p).kind.OtherKind?
    ensures ArnFromPrincipal(p, stackAccount).Success? <==>
              Innermost(p).grantPrincipal.NoGrant? && Innermost(p).arn.Some?
    ensures ArnFromPrincipal(p, stackAccount).Success? ==>
              ArnFromPrincipal(p, stackAccount).value == Innermost(p).arn.value
  {
    ArnFromInnermost(p, stackAccount);
  }

  /** `p` wrapped in grantable objects, innermost first, each with its own `arn` property. */
  function Wrapped(p: Principal, ownArns: seq<Option<string>>): (w: Principal)
    ensures |ownArns| > 0 ==> w.kind.OtherKind? && w.grantPrincipal.Grants?
  {
    if |ownArns| == 0 then p
    else Principal(OtherKind, Grants(Wrapped(p, ownArns[..|ownArns| - 1])), ownArns[|ownArns| - 1])
  }

  /** Wrapping in grantable objects never changes the ARN, whatever `arn` the wrappers expose. */
  lemma {:induction false} WrappedResolvesAsInner(p: Principal, ownArns: seq<Option<string>>, stackAccount: string)
    ensures ArnFromPrincipal(Wrapped(p, ownArns), stackAccount) == ArnFromPrincipal(p, stackAccount)
  {
    if |ownArns| > 0 {
      WrappedResolvesAsInner(p, ownArns[..|ownArns| - 1], stackAccount);
    }
  }

  /**
   * A principal of a known class resolves by its class, whatever its
   * `grantPrincipal` and `arn` are: the first matching case wins.
   */
  lemma KnownKindBeatsFallback(p: Principal, stackAccount: string)
    requires !p.kind.OtherKind?
    ensures ArnFromPrincipal(p, stackAccount) == DirectArn(Principal(p.kind, NoGrant, None), stackAccount)
  {
  }

  // ---------------------------------------------------------------------
  // Statements and their serialisation
  // ---------------------------------------------------------------------

  datatype Rule = Rule(resource: seq<string>, permission: seq<string>, resourceType: string)

  datatype Statement = Statement(rules: seq<Rule>, principal: seq<string>)

  datatype AccessLevel = Read | ReadWrite

  /** The statement one grant appends for the principal whose ARN is `arn`. */
  function StatementFor(level: AccessLevel, collectionName: string, arn: string): (s: Statement)
    ensures |s.rules| == 2 && s.principal == [arn]
    ensures s.rules[0] == Rule(["collection/" + collectionName],
                               if level == Read then CollectionReadPermissions else CollectionReadWritePermissions,
                               "collection")
    ensures s.rules[1] == Rule([if level == Read then "collection/" + collectionName else "index/" + collectionName + "/*"],
                               if level == Read then IndexReadPermissions else IndexReadWritePermissions,
                               "index")
  {
    match level
    case Read =>
      Statement([Rule(["collection/" + collectionName], CollectionReadPermissions, "collection"),
                 Rule(["collection/" + collectionName], IndexReadPermissions, "index")],
                [arn])
    case ReadWrite =>
      Statement([Rule(["collection/" + collectionName], CollectionReadWritePermissions, "collection"),
                 Rule(["index/" + collectionName + "/*"], IndexReadWritePermissions, "index")],
                [arn])
  }

  /** The statements a sequence of successful grants leaves, in call order. */
  function StatementsFor(grants: seq<(AccessLevel, string)>, collectionName: string): (doc: seq<Statement>)
    ensures |doc| == |grants|
    ensures forall i :: 0 <= i < |grants| ==> doc[i] == StatementFor(grants[i].0, collectionName, grants[i].1)
  {
    if |grants| == 0 then []
    else StatementsFor(grants[..|grants| - 1], collectionName)
         + [StatementFor(grants[|grants| - 1].0, collectionName, grants[|grants| - 1].1)]
  }

  function EncodeRule(r: Rule): Json
  {
    JObj([("Resource", JArr(Strings(r.resource))),
          ("Permission", JArr(Strings(r.permission))),
          ("ResourceType", JStr(r.resourceType))])
  }

  function DecodeRule(j: Json): Option<Rule>
  {
    match (Get(j, "Resource"), Get(j, "Permission"), Get(j, "ResourceType"))
    case (Some(JArr(res)), Some(JArr(perm)), Some(JStr(t))) =>
      (match (AsStrings(res), AsStrings(perm))
       case (Some(rs), Some(ps)) => Some(Rule(rs, ps, t))
       case _ => None)
    case _ => None
  }

  function EncodeRules(rules: seq<Rule>): (js: seq<Json>)
    ensures |js| == |rules|
  {
    if |rules| == 0 then [] else [EncodeRule(rules[0])] + EncodeRules(rules[1..])
  }

  function DecodeRules(js: seq<Json>): Option<seq<Rule>>
  {
    if |js| == 0 then Some([])
    else match (DecodeRule(js[0]), DecodeRules(js[1..]))
      case (Some(r), Some(rest)) => Some([r] + rest)
      case _ => None
  }

  function EncodeStatement(s: Statement): Json
  {
    JObj([("Rules", JArr(EncodeRules(s.rules))), ("Principal", JArr(Strings(s.principal)))])
  }

  function DecodeStatement(j: Json): Option<Statement>
  {
    match (Get(j, "Rules"), Get(j, "Principal"))
    case (Some(JArr(rs)), Some(JArr(ps))) =>
      (match (DecodeRules(rs), AsStrings(ps))
       case (Some(rules), Some(principal)) => Some(Statement(rules, principal))
       case _ => None)
    case _ => None
  }

  function EncodeStatements(doc: seq<Statement>): (js: seq<Json>)
    ensures |js| == |doc|
  {
    if |doc| == 0 then [] else [EncodeStatement(doc[0])] + EncodeStatements(doc[1..])
  }

  function DecodeStatements(js: seq<Json>): Option<seq<Statement>>
  {
    if |js| == 0 then Some([])
    else match (DecodeStatement(js[0]), DecodeStatements(js[1..]))
      case (Some(s), Some(rest)) => Some([s] + rest)
      case _ => None
  }

  /** `JSON.stringify(document)`: the published policy text. */
  function EncodeDocument(doc: seq<Statement>): Json
  {
    JArr(EncodeStatements(doc))
  }

  function DecodeDocument(j: Json): Option<seq<Statement>>
  {
    if j.JArr? then DecodeStatements(j.items) else None
  }

  lemma RuleRoundTrip(r: Rule)
    ensures DecodeRule(EncodeRule(r)) == Some(r)
  {
    var m := EncodeRule(r).members;
    assert m[1..] == [m[1], m[2]] && m[2..] == [m[2]];
    assert Get(EncodeRule(r), "Resource") == Some(JArr(Strings(r.resource)));
    assert Get(EncodeRule(r), "Permission") == Some(JArr(Strings(r.permission)));
    assert Get(EncodeRule(r), "ResourceType") == Some(JStr(r.resourceType));
    StringsRoundTrip(r.resource);
    StringsRoundTrip(r.permission);
  }

  lemma {:induction false} RulesRoundTrip(rules: seq<Rule>)
    ensures DecodeRules(EncodeRules(rules)) == Some(rules)
  {
    if |rules| > 0 {
      RuleRoundTrip(rules[0]);
      RulesRoundTrip(rules[1..]);
      assert EncodeRules(rules)[1..] == EncodeRules(rules[1..]);
      assert [rules[0]] + rules[1..] == rules;
    }
  }

  lemma StatementRoundTrip(s: Statement)
    ensures DecodeStatement(EncodeStatement(s)) == Some(s)
  {
    var m := EncodeStatement(s).members;
    assert m[1..] == [m[1]];
    assert Get(EncodeStatement(s), "Rules") == Some(JArr(EncodeRules(s.rules)));
    assert Get(EncodeStatement(s), "Principal") == Some(JArr(Strings(s.principal)));
    RulesRoundTrip(s.rules);
    StringsRoundTrip(s.principal);
  }

  lemma {:induction false} StatementsRoundTrip(doc: seq<Statement>)
    ensures DecodeStatements(EncodeStatements(doc)) == Some(doc)
  {
    if |doc| > 0 {
      StatementRoundTrip(doc[0]);
      StatementsRoundTrip(doc[1..]);
      assert EncodeStatements(doc)[1..] == EncodeStatements(doc[1..]);
      assert [doc[0]] + doc[1..] == doc;
    }
  }

  /** The published policy determines the document: decoding it gives every statement back. */
  lemma DocumentRoundTrip(doc: seq<Statement>)
    ensures DecodeDocument(EncodeDocument(doc)) == Some(doc)
  {
    StatementsRoundTrip(doc);
  }

  /** Two different documents never publish the same policy. */
  lemma EncodeDocumentInjective(d1: seq<Statement>, d2: seq<Statement>)
    ensures EncodeDocument(d1) == EncodeDocument(d2) ==> d1 == d2
  {
    DocumentRoundTrip(d1);
    DocumentRoundTrip(d2);
  }

  // ---------------------------------------------------------------------
  // The policy resource
  // ---------------------------------------------------------------------

  /**
   * `OpenSearchDataAccessPolicy`. The document only grows; `policy` is the
   * serialisation of the whole document after every grant. The ghost `grants`
   * records every successful grant, in call order, with the ARN it resolved.
   */
  class OpenSearchDataAccessPolicy {
    const name: string
    const policyType: string
    const collectionName: string
    const account: string
    const region: string
    var document: seq<Statement>
    var policy: Json
    ghost var grants: seq<(AccessLevel, string)>

    ghost predicate Valid()
      reads this
    {
      && document == StatementsFor(grants, collectionName)
      && policy == EncodeDocument(document)
    }

    /**
     * `uniqueResourceName` is the framework's unique name for the scope (at
     * most 31 characters); `account` and `region` are those of the stack.
     */
    constructor (uniqueResourceName: string, collectionName: string, account: string, region: string)
      ensures Valid()
      ensures this.name == ToLowerAscii(uniqueResourceName) && policyType == "data"
      ensures this.collectionName == collectionName && this.account == account && this.region == region
      ensures document == [] && grants == [] && policy == JArr([])
    {
      this.name := ToLowerAscii(uniqueResourceName);
      this.policyType := "data";
      this.collectionName := collectionName;
      this.account := account;
      this.region := region;
      document := [];
      policy := JArr([]);
      grants := [];
    }

    /**
     * Appends the statement for `level`. The ARN is resolved before anything
     * is pushed, so a principal that cannot be resolved leaves the state as it was.
     */
    method Grant(level: AccessLevel, principal: Principal) returns (r: Outcome<ResolveError>)
      requires Valid()
      modifies this
      ensures Valid()
      ensures match ArnFromPrincipal(principal, account)
        case Failure(e) =>
          r == Fail(e) && document == old(document) && policy == old(policy) && grants == old(grants)
        case Success(arn) =>
          && r == Pass
          && grants == old(grants) + [(level, arn)]
          && document == old(document) + [StatementFor(level, collectionName, arn)]
    {
      var arn := ArnFromPrincipal(principal, account);
      if arn.Failure? {
        return Fail(arn.error);
      }
      document := document + [StatementFor(level, collectionName, arn.value)];
      grants := grants + [(level, arn.value)];
      policy := EncodeDocument(document);
      r := Pass;
    }

    /** `grantRead`: appends a read statement for `principal`. */
    method GrantRead(principal: Principal) returns (r: Outcome<ResolveError>)
      requires Valid()
      modifies this
      ensures Valid()
      ensures match ArnFromPrincipal(principal, account)
        case Failure(e) =>
          r == Fail(e) && document == old(document) && policy == old(policy) && grants == old(grants)
        case Success(arn) =>
          && r == Pass
          && grants == old(grants) + [(Read, arn)]
          && document == old(document) + [StatementFor(Read, collectionName, arn)]
    {
      r := Grant(Read, principal);
    }

    /** `grantReadWrite`: appends a read-write statement for `principal`. */
    method GrantReadWrite(principal: Principal) returns (r: Outcome<ResolveError>)
      requires Valid()
      modifies this
      ensures Valid()
      ensures match ArnFromPrincipal(principal, account)
        case Failure(e) =>
          r == Fail(e) && document == old(document) && policy == old(policy) && grants == old(grants)
        case Success(arn) =>
          && r == Pass
          && grants == old(grants) + [(ReadWrite, arn)]
          && document == old(document) + [StatementFor(ReadWrite, collectionName, arn)]
    {
      r := Grant(ReadWrite, principal);
    }
  }

  /**
   * A read grant followed by a read-write grant to the same role: two
   * statements in call order, the same principal in both.
   */
  method ReadThenReadWrite(roleArn: string)
  {
    var p := new OpenSearchDataAccessPolicy("policy", "kb", "123456789012", "eu-west-1");
    var role := Principal(Role(roleArn), SelfGrant, None);
    assert ArnFromPrincipal(role, p.account) == Success(roleArn);
    var r1 := p.GrantRead(role);
    ghost var afterFirst := p.document;
    assert afterFirst == [StatementFor(Read, "kb", roleArn)];
    var r2 := p.GrantReadWrite(role);
    assert p.document == afterFirst + [StatementFor(ReadWrite, "kb", roleArn)];
    assert r1 == Pass && r2 == Pass;
  }
}
