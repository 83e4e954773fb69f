/**
 * The API Gateway bearer-token authorizer of the MCP endpoint: it strips one
 * optional "Bearer " prefix (the header form of section 2.1 of RFC 6750) from
 * the presented token, compares the rest with the configured token and returns
 * a one-statement IAM policy that allows or denies the invocation.
 */
module Authorizer {
  import opened Json

  const BearerPrefix: string := "Bearer "
  const PrincipalId: string := "mcp-user"
  const PolicyVersion: string := "2012-10-17"
  const InvokeAction: string := "execute-api:Invoke"

  datatype Effect = Allow | Deny

  datatype Statement = Statement(action: string, effect: Effect, resource: string)

  datatype PolicyDocument = PolicyDocument(version: string, statements: seq<Statement>)

  datatype Policy = Policy(principalId: string, document: PolicyDocument)

  /** The authorizer event; a key missing from the event is None. */
  datatype AuthorizerEvent = AuthorizerEvent(authorizationToken: Option<string>, methodArn: Option<string>)

  /** `event['methodArn']` on an event without that key raises KeyError. */
  datatype AuthorizerError = MissingMethodArn

  /** The token after removing at most one leading "Bearer ". */
  function StripBearer(token: string): (r: string)
    ensures StartsWith(token, BearerPrefix) ==> BearerPrefix + r == token
    ensures !StartsWith(token, BearerPrefix) ==> r == token
  {
    if StartsWith(token, BearerPrefix) then token[|BearerPrefix|..] else token
  }

  /**
   * The header values a configured token lets through, stated without
   * stripping: the token with the prefix in front, or the bare token when the
   * bare token does not itself start with the prefix. An unset token admits nothing.
   */
  predicate Admits(expected: Option<string>, presented: string) {
    expected.Some? &&
    (presented == BearerPrefix + expected.value ||
     (presented == expected.value && !StartsWith(expected.value, BearerPrefix)))
  }

  /** The authorizer's decision for the presented token. */
  function Decide(presented: string, expected: Option<string>): Effect {
    if expected == Some(StripBearer(presented)) then Allow else Deny
  }

  /** The decision allows exactly the header values `Admits` describes. */
  lemma DecideAllowsExactlyAdmitted(presented: string, expected: Option<string>)
    ensures Decide(presented, expected) == Allow <==> Admits(expected, presented)
  {
    if expected.Some? {
      var t := expected.value;
      if StartsWith(presented, BearerPrefix) {
        if presented == t {
          assert |StripBearer(presented)| < |t|;
        }
      } else {
        assert (BearerPrefix + t)[..|BearerPrefix|] == BearerPrefix;
      }
    }
  }

  /** The missing-header default of the source: an absent token is the empty string. */
  function PresentedToken(event: AuthorizerEvent): string {
    event.authorizationToken.GetOr("")
  }

  /**
   * The handler. `expectedToken` is the MCP_AUTH_TOKEN environment variable
   * (None when it is unset).
   */
  function LambdaHandler(event: AuthorizerEvent, expectedToken: Option<string>): (r: Result<Policy, AuthorizerError>)
    ensures event.methodArn.None? <==> r == Failure(MissingMethodArn)
    ensures r.Success? ==>
      && r.value.principalId == PrincipalId
      && r.value.document.version == PolicyVersion
      && |r.value.document.statements| == 1
      && r.value.document.statements[0].action == InvokeAction
      && r.value.document.statements[0].resource == event.methodArn.value
      && (r.value.document.statements[0].effect == Allow <==> Admits(expectedToken, PresentedToken(event)))
  {
    var effect := Decide(PresentedToken(event), expectedToken);
    DecideAllowsExactlyAdmitted(PresentedToken(event), expectedToken);
    match event.methodArn
    case None => Failure(MissingMethodArn)
    case Some(arn) =>
      Success(Policy(PrincipalId, PolicyDocument(PolicyVersion, [Statement(InvokeAction, effect, arn)])))
  }

  /** Only one prefix is stripped: "Bearer Bearer x" is compared as "Bearer x". */
  lemma StripsOnlyOnePrefix(x: string)
    ensures Decide(BearerPrefix + BearerPrefix + x, Some(BearerPrefix + x)) == Allow
    ensures Decide(BearerPrefix + BearerPrefix + x, Some(x)) == Deny
  {
    var h := BearerPrefix + BearerPrefix + x;
    assert h == BearerPrefix + (BearerPrefix + x);
    DecideAllowsExactlyAdmitted(h, Some(BearerPrefix + x));
    DecideAllowsExactlyAdmitted(h, Some(x));
    assert |h| > |BearerPrefix + x|;
  }

  /** The prefix match is case-sensitive and needs the trailing space. */
  lemma PrefixIsExact(t: string)
    ensures Decide("bearer " + t, Some(t)) == Deny
    ensures Decide("Bearer" + t, Some(t)) == Deny
  {
    DecideAllowsExactlyAdmitted("bearer " + t, Some(t));
    DecideAllowsExactlyAdmitted("Bearer" + t, Some(t));
    assert ("bearer " + t)[0] != (BearerPrefix + t)[0];
    assert |"Bearer" + t| != |BearerPrefix + t|;
    assert |"bearer " + t| != |t| && |"Bearer" + t| != |t|;
  }

  /** With MCP_AUTH_TOKEN unset every request is denied. */
  lemma UnsetTokenDeniesAll(event: AuthorizerEvent)
    requires event.methodArn.Some?
    ensures LambdaHandler(event, None).value.document.statements[0].effect == Deny
  {
  }

  /** With MCP_AUTH_TOKEN set to "", a request without a token, or with only the prefix, is allowed. */
  lemma EmptyTokenAdmitsMissingHeader(arn: string)
    ensures LambdaHandler(AuthorizerEvent(None, Some(arn)), Some("")).value.document.statements[0].effect == Allow
    ensures LambdaHandler(AuthorizerEvent(Some(BearerPrefix), Some(arn)), Some("")).value.document.statements[0].effect == Allow
  {
    assert BearerPrefix + "" == BearerPrefix;
  }
}
