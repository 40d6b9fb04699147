/**
 * The inbound webhook validators of src/Webhook/index.ts.
 *
 * `register` checks the GET subscription handshake and `eventNotification`
 * checks a POST event delivery. Each is a fixed chain of guards in which the
 * first guard that fails decides the error thrown; a thrown error is the
 * `Failure` branch of a `Result`. The two foreign collaborators of the source
 * are parameters: `JSON.parse` is a partial function `Parser`, and node's
 * HMAC-SHA256 hex digest is a function `HmacSha256Hex`, both left
 * uninterpreted.
 */
module Webhook {
  import opened Wrappers
  import opened JsonValue
  import opened JsString

  /**
   * The request record both validators take. Header names are looked up
   * exactly as given; the caller's HTTP layer is expected to lower-case them.
   */
  datatype IncomingRequest = IncomingRequest(
    httpMethod: string,
    query: map<string, string>,
    body: Option<string>,
    headers: map<string, string>)

  /** The marker error classes the webhook raises, one per validation rule. */
  datatype WebhookErrorKind =
    | IncorrectMethod
    | InvalidHubMode
    | InvalidHubChallenge
    | InvalidHubVerifyToken
    | InvalidHubSignature
    | MissingBody

  /** A thrown webhook error: its class and its message. */
  datatype WebhookError = WebhookError(kind: WebhookErrorKind, message: string)

  /**
   * What `eventNotification` can throw: one of the webhook errors, or the
   * `SyntaxError` of `JSON.parse`, which belongs to none of the webhook kinds.
   */
  datatype EventNotificationError = Rejected(error: WebhookError) | JsonSyntaxError

  /** `JSON.parse`: None when the text is not JSON. */
  type Parser = string -> Option<Json>

  /** `createHmac("sha256", key).update(message).digest("hex")`. */
  type HmacSha256Hex = (string, string) -> string

  const RegisterMethodMessage := "Webhook Registration Requests must use the GET request method."
  const HubModeMessage := "Webhook Registration Request must have query parameter: hub.mode=subscribe"
  const HubChallengeMessage := "Webhook Registration Request must have query parameter: hub.challenge"
  const HubVerifyTokenMessage := "Webhook Registration Request must have query parameter: hub.verify_token"
  const EventMethodMessage := "Webhook Event Notification Request must use the POST request method."
  const SignatureHeaderMessage := "Webhook Event Notification Request must have header: x-hub-signature-256"
  const MissingBodyMessage := "Webhook Event Notification Request must have a body"
  const SignatureMismatchMessage := "Webhook Event Notification Signature doesn't match received body"

  const SignatureHeader := "x-hub-signature-256"
  const SignaturePrefix := "sha256="

  /** `record[key]`, with `undefined` for a missing key. */
  function Get(record: map<string, string>, key: string): Option<string> {
    if key in record then Some(record[key]) else None
  }

  // ---------------------------------------------------------------------
  // Validation chains, stated independently of the two validators
  // ---------------------------------------------------------------------

  /** One guard of a chain: whether it passes, and what it throws if not. */
  datatype Check = Check(passes: bool, error: WebhookError)

  /** The error of the first guard that fails, or None when all pass. */
  function FirstFailing(checks: seq<Check>): Option<WebhookError> {
    if checks == [] then None
    else if !checks[0].passes then Some(checks[0].error)
    else FirstFailing(checks[1..])
  }

  /**
   * FirstFailing finds nothing exactly when every guard passes, and otherwise
   * the error of a failing guard all of whose predecessors pass.
   */
  lemma {:induction false} FirstFailingIsFirst(checks: seq<Check>)
    ensures FirstFailing(checks).None? <==> forall i :: 0 <= i < |checks| ==> checks[i].passes
    ensures FirstFailing(checks).Some? ==>
      exists i :: 0 <= i < |checks| && !checks[i].passes && checks[i].error == FirstFailing(checks).value
                  && forall j :: 0 <= j < i ==> checks[j].passes
  {
    if checks != [] && checks[0].passes {
      var rest := checks[1..];
      FirstFailingIsFirst(rest);
      forall i | 0 < i < |checks| ensures checks[i] == rest[i - 1] { }
      if FirstFailing(rest).Some? {
        var i :| 0 <= i < |rest| && !rest[i].passes && rest[i].error == FirstFailing(rest).value
                 && forall j :: 0 <= j < i ==> rest[j].passes;
        assert !checks[i + 1].passes && checks[i + 1].error == FirstFailing(checks).value;
        assert forall j :: 0 <= j < i + 1 ==> checks[j].passes by {
          forall j | 0 < j < i + 1 ensures checks[j].passes { assert rest[j - 1].passes; }
        }
      } else {
        assert forall i :: 0 <= i < |checks| ==> checks[i].passes by {
          forall i | 0 < i < |checks| ensures checks[i].passes { assert rest[i - 1].passes; }
        }
      }
    }
  }

  /** The guards of `register`, in the order the source runs them. */
  function RegistrationChecks(request: IncomingRequest): seq<Check> {
    [ Check(SpellsIgnoringCase(request.httpMethod, "get"), WebhookError(IncorrectMethod, RegisterMethodMessage)),
      Check(Get(request.query, "hub.mode") == Some("subscribe"), WebhookError(InvalidHubMode, HubModeMessage)),
      Check(Truthy(Get(request.query, "hub.challenge")), WebhookError(InvalidHubChallenge, HubChallengeMessage)),
      Check(Truthy(Get(request.query, "hub.verify_token")), WebhookError(InvalidHubVerifyToken, HubVerifyTokenMessage)) ]
  }

  /** The guards of `eventNotification` that precede JSON parsing, in order. */
  function EventNotificationChecks(request: IncomingRequest): seq<Check> {
    [ Check(SpellsIgnoringCase(request.httpMethod, "post"), WebhookError(IncorrectMethod, EventMethodMessage)),
      Check(Truthy(HubSignature(request.headers)), WebhookError(InvalidHubSignature, SignatureHeaderMessage)),
      Check(Truthy(request.body), WebhookError(MissingBody, MissingBodyMessage)) ]
  }

  // ---------------------------------------------------------------------
  // register
  // ---------------------------------------------------------------------

  /** The object `register` resolves to, with its two closures. */
  datatype RegistrationOutcome = RegistrationOutcome(verifyToken: string, challenge: string) {
    /** `accept()`: the response body, the challenge echoed back. */
    function Accept(): string { challenge }

    /** `reject()`: returns `undefined`, so the response body is empty. */
    function Reject(): Option<string> { None }
  }

  /** `register(request)`: the GET subscription handshake. */
  function Register(request: IncomingRequest): Result<RegistrationOutcome, WebhookError> {
    if ToLowerCase(request.httpMethod) != "get" then
      Failure(WebhookError(IncorrectMethod, RegisterMethodMessage))
    else
      var hubMode := Get(request.query, "hub.mode");
      if !Truthy(hubMode) || hubMode.value != "subscribe" then
        Failure(WebhookError(InvalidHubMode, HubModeMessage))
      else
        var hubChallenge := Get(request.query, "hub.challenge");
        if !Truthy(hubChallenge) then
          Failure(WebhookError(InvalidHubChallenge, HubChallengeMessage))
        else
          var hubVerifyToken := Get(request.query, "hub.verify_token");
          if !Truthy(hubVerifyToken) then
            Failure(WebhookError(InvalidHubVerifyToken, HubVerifyTokenMessage))
          else
            Success(RegistrationOutcome(hubVerifyToken.value, hubChallenge.value))
  }

  /** `register` throws exactly the error of the first failing guard, and succeeds when none fails. */
  lemma RegisterRunsChecksInOrder(request: IncomingRequest)
    ensures Register(request).Success? <==> FirstFailing(RegistrationChecks(request)).None?
    ensures Register(request).Failure? ==> Register(request).error == FirstFailing(RegistrationChecks(request)).value
  {
    ToLowerCaseMatches(request.httpMethod, "get");
    var c := RegistrationChecks(request);
    assert c[1..][1..] == c[2..] && c[2..][1..] == c[3..] && c[3..][1..] == [];
    assert FirstFailing(c[3..]) == if !c[3].passes then Some(c[3].error) else None;
    assert FirstFailing(c[2..]) == if !c[2].passes then Some(c[2].error) else FirstFailing(c[3..]);
    assert FirstFailing(c[1..]) == if !c[1].passes then Some(c[1].error) else FirstFailing(c[2..]);
  }

  /** The method decides first: any query, headers and body give IncorrectMethod for a method other than GET. */
  lemma RegisterIncorrectMethodIff(request: IncomingRequest)
    ensures (Register(request).Failure? && Register(request).error.kind == IncorrectMethod)
            <==> !SpellsIgnoringCase(request.httpMethod, "get")
  {
    ToLowerCaseMatches(request.httpMethod, "get");
  }

  /**
   * On success the outcome carries the query's token and challenge verbatim,
   * `accept()` echoes the challenge and `reject()` gives no body. The token is
   * not compared with anything: every non-empty token is accepted.
   */
  lemma RegisterOutcome(request: IncomingRequest)
    requires Register(request).Success?
    ensures "hub.verify_token" in request.query && "hub.challenge" in request.query
    ensures Register(request).value.verifyToken == request.query["hub.verify_token"] != ""
    ensures Register(request).value.challenge == request.query["hub.challenge"] != ""
    ensures Get(request.query, "hub.mode") == Some("subscribe")
    ensures Register(request).value.Accept() == request.query["hub.challenge"]
    ensures Register(request).value.Reject() == None
  {
  }

  /** No comparison of the token with a secret takes place: any other non-empty token is accepted alike. */
  lemma RegisterAcceptsAnyToken(request: IncomingRequest, token: string)
    requires Register(request).Success?
    requires token != ""
    ensures var other := request.(query := request.query["hub.verify_token" := token]);
            Register(other) == Success(Register(request).value.(verifyToken := token))
  {
  }

  /** For each of the three query parameters, a missing key and an empty value are treated alike. */
  lemma RegisterMissingIsEmpty(request: IncomingRequest, key: string)
    requires key == "hub.mode" || key == "hub.challenge" || key == "hub.verify_token"
    ensures Register(request.(query := request.query - {key})) == Register(request.(query := request.query[key := ""]))
  {
  }

  // ---------------------------------------------------------------------
  // eventNotification
  // ---------------------------------------------------------------------

  /**
   * The `x-hub-signature-256` header with the first occurrence of `sha256=`
   * removed, or None when the header is absent.
   */
  function HubSignature(headers: map<string, string>): (r: Option<string>)
    ensures r.Some? <==> SignatureHeader in headers
    ensures forall hex :: SignatureHeader in headers && headers[SignatureHeader] == SignaturePrefix + hex ==> r == Some(hex)
  {
    if SignatureHeader in headers then
      var value := headers[SignatureHeader];
      assert forall hex :: value == SignaturePrefix + hex ==> RemoveFirst(value, SignaturePrefix) == hex by {
        forall hex | value == SignaturePrefix + hex ensures RemoveFirst(value, SignaturePrefix) == hex {
          RemoveFirstOfPrefix(SignaturePrefix, hex);
        }
      }
      Some(RemoveFirst(value, SignaturePrefix))
    else None
  }

  /**
   * The object `eventNotification` resolves to: the parsed notification and,
   * for its closures, the raw body and the stripped signature.
   */
  datatype EventNotificationOutcome = EventNotificationOutcome(
    eventNotification: Json,
    bodyString: string,
    xHubSignature256: string)
  {
    /** `accept()`: returns `undefined`, so the response body is empty. */
    function Accept(): Option<string> { None }
  }

  /** `checkSignature(appSecret)`: the stripped header equals the hex digest of the raw body, exactly. */
  function CheckSignature(outcome: EventNotificationOutcome, appSecret: string, hmac: HmacSha256Hex): bool {
    outcome.xHubSignature256 == hmac(appSecret, outcome.bodyString)
  }

  /** `verifySignature(appSecret)`: None when it returns, Some(error) when it throws. */
  function VerifySignature(outcome: EventNotificationOutcome, appSecret: string, hmac: HmacSha256Hex): Option<WebhookError> {
    if !CheckSignature(outcome, appSecret, hmac) then
      Some(WebhookError(InvalidHubSignature, SignatureMismatchMessage))
    else None
  }

  /** `eventNotification(request)`: the POST event delivery. */
  function EventNotification(request: IncomingRequest, parse: Parser): Result<EventNotificationOutcome, EventNotificationError> {
    if ToLowerCase(request.httpMethod) != "post" then
      Failure(Rejected(WebhookError(IncorrectMethod, EventMethodMessage)))
    else
      var xHubSignature256 := HubSignature(request.headers);
      if !Truthy(xHubSignature256) then
        Failure(Rejected(WebhookError(InvalidHubSignature, SignatureHeaderMessage)))
      else if !Truthy(request.body) then
        Failure(Rejected(WebhookError(MissingBody, MissingBodyMessage)))
      else
        // Buffer.from(body).toString("utf8") gives the body back unchanged.
        var bodyString := request.body.value;
        match parse(bodyString)
        case None => Failure(JsonSyntaxError)
        case Some(eventNotification) =>
          Success(EventNotificationOutcome(eventNotification, bodyString, xHubSignature256.value))
  }

  /**
   * When a guard fails, `eventNotification` throws the first failing guard's
   * error, whatever `JSON.parse` would have done: parsing comes after them.
   */
  lemma EventNotificationRunsChecksInOrder(request: IncomingRequest, parse: Parser)
    requires FirstFailing(EventNotificationChecks(request)).Some?
    ensures EventNotification(request, parse) == Failure(Rejected(FirstFailing(EventNotificationChecks(request)).value))
  {
    ToLowerCaseMatches(request.httpMethod, "post");
    var c := EventNotificationChecks(request);
    assert c[1..][1..] == c[2..] && c[2..][1..] == [];
    assert FirstFailing(c[2..]) == if !c[2].passes then Some(c[2].error) else None;
    assert FirstFailing(c[1..]) == if !c[1].passes then Some(c[1].error) else FirstFailing(c[2..]);
  }

  /**
   * When every guard passes, only `JSON.parse` is left: a parse failure is the
   * distinct JsonSyntaxError, and otherwise the outcome holds the parsed value,
   * the raw body as received and the stripped signature.
   */
  lemma EventNotificationParsesLast(request: IncomingRequest, parse: Parser)
    requires FirstFailing(EventNotificationChecks(request)).None?
    ensures request.body.Some? && SignatureHeader in request.headers
    ensures EventNotification(request, parse) == Failure(JsonSyntaxError) <==> parse(request.body.value).None?
    ensures EventNotification(request, parse).Success? <==> parse(request.body.value).Some?
    ensures EventNotification(request, parse).Success? ==>
      && EventNotification(request, parse).value.eventNotification == parse(request.body.value).value
      && EventNotification(request, parse).value.bodyString == request.body.value != ""
      && EventNotification(request, parse).value.xHubSignature256
         == RemoveFirst(request.headers[SignatureHeader], SignaturePrefix) != ""
      && EventNotification(request, parse).value.Accept() == None
  {
    ToLowerCaseMatches(request.httpMethod, "post");
    var checks := EventNotificationChecks(request);
    FirstFailingIsFirst(checks);
    assert checks[0].passes && checks[1].passes && checks[2].passes;
  }

  /** The method decides first: any headers and body give IncorrectMethod for a method other than POST. */
  lemma EventNotificationIncorrectMethodIff(request: IncomingRequest, parse: Parser)
    ensures EventNotification(request, parse) == Failure(Rejected(WebhookError(IncorrectMethod, EventMethodMessage)))
            <==> !SpellsIgnoringCase(request.httpMethod, "post")
  {
    ToLowerCaseMatches(request.httpMethod, "post");
  }

  /**
   * With a POST method, an absent header, or one that is empty once `sha256=`
   * is removed, is InvalidHubSignature whatever the body is.
   */
  lemma SignatureCheckedBeforeBody(request: IncomingRequest, parse: Parser, body: Option<string>)
    requires SpellsIgnoringCase(request.httpMethod, "post")
    requires SignatureHeader !in request.headers || RemoveFirst(request.headers[SignatureHeader], SignaturePrefix) == ""
    ensures EventNotification(request.(body := body), parse).Failure?
    ensures EventNotification(request.(body := body), parse).error == Rejected(WebhookError(InvalidHubSignature, SignatureHeaderMessage))
  {
    ToLowerCaseMatches(request.httpMethod, "post");
  }

  /** `sha256=` is removed wherever it first occurs, not only as a prefix. */
  lemma SignatureMarkerRemovedAnywhere()
    ensures HubSignature(map[SignatureHeader := "ab" + SignaturePrefix + "cd"]) == Some("abcd")
  {
    var s := "ab" + SignaturePrefix + "cd";
    assert OccursAt(s, SignaturePrefix, 2) by { assert s[2..9] == SignaturePrefix; }
    assert !OccursAt(s, SignaturePrefix, 0) by { assert s[0] != SignaturePrefix[0]; }
    assert !OccursAt(s, SignaturePrefix, 1) by { assert s[1] != SignaturePrefix[0]; }
    assert IndexOf(s, SignaturePrefix) == Some(2);
    assert s[..2] + s[9..] == "abcd";
  }

  /**
   * `checkSignature` on the outcome of a request is true exactly when the
   * header, with `sha256=` removed, equals the digest of the raw body keyed
   * by the secret.
   */
  lemma CheckSignatureOfRequest(request: IncomingRequest, parse: Parser, appSecret: string, hmac: HmacSha256Hex)
    requires EventNotification(request, parse).Success?
    ensures SignatureHeader in request.headers && request.body.Some?
    ensures CheckSignature(EventNotification(request, parse).value, appSecret, hmac)
            <==> RemoveFirst(request.headers[SignatureHeader], SignaturePrefix) == hmac(appSecret, request.body.value)
  {
  }

  /**
   * The verdict depends only on the secret, the raw body and the header:
   * neither the method's spelling, the query, the other headers nor the parser
   * can change it.
   */
  lemma CheckSignatureDependsOnBodyAndHeader(r1: IncomingRequest, r2: IncomingRequest, p1: Parser, p2: Parser,
                                             appSecret: string, hmac: HmacSha256Hex)
    requires EventNotification(r1, p1).Success? && EventNotification(r2, p2).Success?
    requires r1.body == r2.body
    requires Get(r1.headers, SignatureHeader) == Get(r2.headers, SignatureHeader)
    ensures CheckSignature(EventNotification(r1, p1).value, appSecret, hmac)
            == CheckSignature(EventNotification(r2, p2).value, appSecret, hmac)
  {
    CheckSignatureOfRequest(r1, p1, appSecret, hmac);
    CheckSignatureOfRequest(r2, p2, appSecret, hmac);
  }

  /**
   * The comparison is case-sensitive: a header carrying the correct digest in
   * upper-case hex is refused whenever the digest has a letter in it.
   */
  lemma UpperCaseDigestRejected(request: IncomingRequest, parse: Parser, appSecret: string, hmac: HmacSha256Hex)
    requires EventNotification(request, parse).Success?
    requires request.body.Some?
    requires var digest := hmac(appSecret, request.body.value);
             && Get(request.headers, SignatureHeader) == Some(SignaturePrefix + ToUpperCase(digest))
             && exists i :: 0 <= i < |digest| && 'a' <= digest[i] <= 'f'
    ensures !CheckSignature(EventNotification(request, parse).value, appSecret, hmac)
  {
    var digest := hmac(appSecret, request.body.value);
    var upper := ToUpperCase(digest);
    var i :| 0 <= i < |digest| && 'a' <= digest[i] <= 'f';
    assert upper != digest by { assert upper[i] != digest[i]; }
    assert HubSignature(request.headers) == Some(upper);
    CheckSignatureOfRequest(request, parse, appSecret, hmac);
  }

  /**
   * A header that matched one body does not pass for another body whose
   * digest differs: an altered body is detected as far as the digest tells
   * the two apart.
   */
  lemma AlteredBodyRejected(request: IncomingRequest, parse: Parser, appSecret: string, hmac: HmacSha256Hex, altered: string)
    requires EventNotification(request, parse).Success?
    requires CheckSignature(EventNotification(request, parse).value, appSecret, hmac)
    requires EventNotification(request.(body := Some(altered)), parse).Success?
    requires hmac(appSecret, altered) != hmac(appSecret, request.body.value)
    ensures !CheckSignature(EventNotification(request.(body := Some(altered)), parse).value, appSecret, hmac)
  {
    CheckSignatureOfRequest(request, parse, appSecret, hmac);
    CheckSignatureOfRequest(request.(body := Some(altered)), parse, appSecret, hmac);
  }

  /** `verifySignature` throws InvalidHubSignature exactly when `checkSignature` is false, and otherwise returns. */
  lemma VerifySignatureIff(outcome: EventNotificationOutcome, appSecret: string, hmac: HmacSha256Hex)
    ensures VerifySignature(outcome, appSecret, hmac).None? <==> CheckSignature(outcome, appSecret, hmac)
    ensures VerifySignature(outcome, appSecret, hmac).Some? ==>
      VerifySignature(outcome, appSecret, hmac).value.kind == InvalidHubSignature
  {
  }
}
