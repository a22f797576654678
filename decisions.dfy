/** The decision record sent downstream, and the HTTP exchange that sends it.
    The HTTP transport is not modelled: what each POST returns or raises is an
    input, and what the sender does is a sequence of `HttpEffect`s. */
module Decisions {
  import opened Wrappers
  import opened Config
  import opened SaeMessages

  /** A JSON value as the payload serialiser writes it. */
  datatype JsonValue = JNull | JInt(i: int) | JReal(r: real) | JString(s: string) | JObject(members: map<string, JsonValue>)

  /** The API's `Module` and `DecisionType`: an id and a name, plus whatever
      further fields the generated model has. */
  datatype Module = Module(id: Option<int>, name: Option<string>, otherFields: map<string, JsonValue>)

  datatype DecisionType = DecisionType(id: Option<int>, name: Option<string>, otherFields: map<string, JsonValue>)

  /** The API's `Decision`; `otherFields` stands for the model's fields that no
      include entry names. */
  datatype Decision = Decision(
    acquisitionTime: Option<int>,
    mediaUrl: Option<string>,
    actionVisualizationUrl: Option<string>,
    cameraLatitude: Option<real>,
    cameraLongitude: Option<real>,
    description: Option<string>,
    moduleRef: Option<Module>,
    decisionType: Option<DecisionType>,
    otherFields: map<string, JsonValue>)

  /** A `Decision()` with nothing set. */
  const EmptyDecision := Decision(None, None, None, None, None, None, None, None, map[])

  /** The fields the serialiser is told to include, and the sub-fields of `module` and `decision_type`. */
  const DecisionFields: set<string> := {
    "acquisition_time", "media_url", "action_visualization_url", "camera_latitude",
    "camera_longitude", "description", "module", "decision_type"}

  const IdAndName: set<string> := {"id", "name"}

  /** Where the annotated image of message `saeId` is linked from. */
  function MediaUrl(bucketName: string, saeId: string): string {
    bucketName + "/" + saeId + "/annotated.jpg"
  }

  /** The record `_create_decision_msg` fills in: the media link, the module
      name, the frame's timestamp as it is, and the camera position only when
      the frame carries one. */
  function BuildDecision(config: HttpOutputConfig, msg: SaeMessage, saeId: string): (d: Decision)
    ensures d.mediaUrl == Some(MediaUrl(config.minio.bucketName, saeId))
    ensures d.moduleRef.Some? && d.moduleRef.value.name == Some(config.moduleName)
    ensures d.acquisitionTime == Some(msg.frame.timestampUtcMs)
    ensures d.cameraLatitude.Some? <==> msg.frame.cameraLocation.Some?
    ensures d.cameraLongitude.Some? <==> msg.frame.cameraLocation.Some?
    ensures msg.frame.cameraLocation.Some? ==>
      d.cameraLatitude.value == msg.frame.cameraLocation.value.latitude
      && d.cameraLongitude.value == msg.frame.cameraLocation.value.longitude
  {
    var d := EmptyDecision.(
      mediaUrl := Some(MediaUrl(config.minio.bucketName, saeId)),
      moduleRef := Some(Module(None, Some(config.moduleName), map[])),
      acquisitionTime := Some(msg.frame.timestampUtcMs));
    match msg.frame.cameraLocation
    case Some(location) => d.(cameraLatitude := Some(location.latitude), cameraLongitude := Some(location.longitude))
    case None => d
  }

  function IntOrNull(v: Option<int>): JsonValue {
    if v.Some? then JInt(v.value) else JNull
  }

  function RealOrNull(v: Option<real>): JsonValue {
    if v.Some? then JReal(v.value) else JNull
  }

  function StringOrNull(v: Option<string>): JsonValue {
    if v.Some? then JString(v.value) else JNull
  }

  function IdNameObject(id: Option<int>, name: Option<string>): JsonValue {
    JObject(map["id" := IntOrNull(id), "name" := StringOrNull(name)])
  }

  /** Serialisation restricted to the include list. There is no
      `exclude_unset` or `exclude_none`, so an unset field is written as null. */
  function DumpIncluded(d: Decision): map<string, JsonValue> {
    map[
      "acquisition_time" := IntOrNull(d.acquisitionTime),
      "media_url" := StringOrNull(d.mediaUrl),
      "action_visualization_url" := StringOrNull(d.actionVisualizationUrl),
      "camera_latitude" := RealOrNull(d.cameraLatitude),
      "camera_longitude" := RealOrNull(d.cameraLongitude),
      "description" := StringOrNull(d.description),
      "module" := if d.moduleRef.Some? then IdNameObject(d.moduleRef.value.id, d.moduleRef.value.name) else JNull,
      "decision_type" := if d.decisionType.Some? then IdNameObject(d.decisionType.value.id, d.decisionType.value.name) else JNull]
  }

  /** Whatever the record holds, the payload has exactly the listed fields;
      `module` and `decision_type` are null or carry exactly `id` and `name`. */
  lemma DumpIsWhitelisted(d: Decision)
    ensures DumpIncluded(d).Keys == DecisionFields
    ensures DumpIncluded(d)["module"] == JNull || (DumpIncluded(d)["module"].JObject? && DumpIncluded(d)["module"].members.Keys == IdAndName)
    ensures DumpIncluded(d)["decision_type"] == JNull || (DumpIncluded(d)["decision_type"].JObject? && DumpIncluded(d)["decision_type"].members.Keys == IdAndName)
  {
  }

  /** Fields outside the include list never reach the payload. */
  lemma DumpIgnoresOtherFields(d: Decision, others: map<string, JsonValue>, moduleOthers: map<string, JsonValue>, typeOthers: map<string, JsonValue>)
    ensures DumpIncluded(d.(otherFields := others)) == DumpIncluded(d)
    ensures d.moduleRef.Some? ==> DumpIncluded(d.(moduleRef := Some(d.moduleRef.value.(otherFields := moduleOthers)))) == DumpIncluded(d)
    ensures d.decisionType.Some? ==> DumpIncluded(d.(decisionType := Some(d.decisionType.value.(otherFields := typeOthers)))) == DumpIncluded(d)
  {
  }

  /** The payload `_create_decision_msg` returns. */
  function CreateDecisionMsg(config: HttpOutputConfig, msg: SaeMessage, saeId: string): map<string, JsonValue> {
    DumpIncluded(BuildDecision(config, msg, saeId))
  }

  /** The payload carries the media link, the module name, the frame's
      timestamp unconverted and the camera position or nulls; the other
      listed fields are null. */
  lemma DecisionPayload(config: HttpOutputConfig, msg: SaeMessage, saeId: string)
    ensures var payload := CreateDecisionMsg(config, msg, saeId);
      && payload.Keys == DecisionFields
      && payload["media_url"] == JString(config.minio.bucketName + "/" + saeId + "/annotated.jpg")
      && payload["module"] == JObject(map["id" := JNull, "name" := JString(config.moduleName)])
      && payload["acquisition_time"] == JInt(msg.frame.timestampUtcMs)
      && payload["camera_latitude"]
         == (if msg.frame.cameraLocation.Some? then JReal(msg.frame.cameraLocation.value.latitude) else JNull)
      && payload["camera_longitude"]
         == (if msg.frame.cameraLocation.Some? then JReal(msg.frame.cameraLocation.value.longitude) else JNull)
      && payload["decision_type"] == JNull && payload["description"] == JNull && payload["action_visualization_url"] == JNull
  {
  }

  // Sending.

  /** What a `requests.post` call can raise, by the `except` clause that catches it. */
  datatype Raised =
    | RaisedTimeout        // `requests.Timeout`
    | RaisedRequestError   // any other `requests.RequestException` (connection, invalid URL, bad JSON, ...)
    | RaisedOtherError     // anything else

  /** The body of the token endpoint's reply, as `.json()` reads it. */
  datatype JsonBody = NotJson | JsonObject(members: map<string, string>) | JsonNotObject

  datatype TokenReply = TokenRaised(raised: Raised) | TokenReplied(body: JsonBody)

  datatype DecisionReply = DecisionRaised(raised: Raised) | DecisionReplied(status: int)

  /** The error category logged when sending fails. */
  datatype SendError = TimedOut | HttpStatusError(status: int) | RequestFailed | UnexpectedError

  datatype PostBody = FormData(fields: map<string, string>) | DecisionJson(payload: map<string, JsonValue>)

  /** One POST, or one logged failure. `timeout == None` is a POST without a timeout. */
  datatype HttpEffect =
    | Post(url: string, body: PostBody, headers: map<string, string>, timeout: Option<int>)
    | SendErrorLogged(error: SendError)

  /** The `except` clauses, in their order: `Timeout`, `HTTPError`, `RequestException`, `Exception`. */
  function Caught(raised: Raised): SendError {
    match raised
    case RaisedTimeout => TimedOut
    case RaisedRequestError => RequestFailed
    case RaisedOtherError => UnexpectedError
  }

  /** The password-grant form posted to the token endpoint. */
  function TokenForm(auth: AuthConfig): map<string, string> {
    map["client_id" := auth.clientId, "username" := auth.username, "password" := auth.password, "grant_type" := "password"]
  }

  /** `.json().get('access_token')`, as it ends up in an f-string: a reply
      without the field gives the text "None". Non-JSON bodies raise a
      `RequestException`; JSON that is not an object has no `.get` and raises
      an `AttributeError`. */
  function TokenStep(reply: TokenReply): Result<string, SendError> {
    match reply
    case TokenRaised(raised) => Err(Caught(raised))
    case TokenReplied(NotJson) => Err(RequestFailed)
    case TokenReplied(JsonNotObject) => Err(UnexpectedError)
    case TokenReplied(JsonObject(members)) => Ok(if "access_token" in members then members["access_token"] else "None")
  }

  /** The request headers: a bearer token only when auth is configured. */
  function Headers(authConfigured: bool, token: string): map<string, string> {
    if authConfigured then map["Authorization" := "Bearer " + token, "Content-Type" := "application/json"]
    else map["Content-Type" := "application/json"]
  }

  /** `raise_for_status`: a 4xx or 5xx status raises `HTTPError`. */
  function DecisionOutcome(reply: DecisionReply): seq<HttpEffect> {
    match reply
    case DecisionRaised(raised) => [SendErrorLogged(Caught(raised))]
    case DecisionReplied(status) => if 400 <= status < 600 then [SendErrorLogged(HttpStatusError(status))] else []
  }

  /** Everything `send_decision_message` does, in order. */
  function SendEffects(config: HttpOutputConfig, payload: map<string, JsonValue>, tokenReply: TokenReply, decisionReply: DecisionReply): seq<HttpEffect> {
    match config.auth
    case None =>
      [Post(config.targetEndpoint, DecisionJson(payload), Headers(false, ""), Some(config.timeout))] + DecisionOutcome(decisionReply)
    case Some(auth) =>
      var tokenPost := Post(auth.tokenEndpointUrl, FormData(TokenForm(auth)), map[], None);
      match TokenStep(tokenReply)
      case Err(error) => [tokenPost, SendErrorLogged(error)]
      case Ok(token) =>
        [tokenPost, Post(config.targetEndpoint, DecisionJson(payload), Headers(true, token), Some(config.timeout))]
        + DecisionOutcome(decisionReply)
  }

  /** The POSTs among a sequence of effects. */
  function Posts(effects: seq<HttpEffect>): (posts: seq<HttpEffect>)
    ensures forall e :: e in posts ==> e.Post? && e in effects
    ensures |posts| <= |effects|
  {
    if effects == [] then []
    else (if effects[0].Post? then [effects[0]] else []) + Posts(effects[1..])
  }

  lemma {:induction false} PostsAppend(a: seq<HttpEffect>, b: seq<HttpEffect>)
    ensures Posts(a + b) == Posts(a) + Posts(b)
  {
    if a != [] {
      assert (a + b)[1..] == a[1..] + b;
      PostsAppend(a[1..], b);
    } else {
      assert a + b == b;
    }
  }

  lemma NoPostsInOutcome(reply: DecisionReply)
    ensures Posts(DecisionOutcome(reply)) == []
  {
  }

  /** One POST without auth; with auth, the token POST (no timeout, the
      password-grant form) comes first and, if a token was read, the decision
      POST follows, two in all. The decision POST always carries the payload,
      the configured timeout and the headers for the auth setting. */
  lemma SendPostSequence(config: HttpOutputConfig, payload: map<string, JsonValue>, tokenReply: TokenReply, decisionReply: DecisionReply)
    ensures var posts := Posts(SendEffects(config, payload, tokenReply, decisionReply));
      && |posts| == (if config.auth.Some? && TokenStep(tokenReply).Ok? then 2 else 1)
      && (config.auth.None? ==>
            posts[0] == Post(config.targetEndpoint, DecisionJson(payload), map["Content-Type" := "application/json"], Some(config.timeout)))
      && (config.auth.Some? ==>
            posts[0] == Post(config.auth.value.tokenEndpointUrl, FormData(TokenForm(config.auth.value)), map[], None))
      && (config.auth.Some? && TokenStep(tokenReply).Ok? ==>
            posts[1] == Post(config.targetEndpoint, DecisionJson(payload),
                             map["Authorization" := "Bearer " + TokenStep(tokenReply).value, "Content-Type" := "application/json"],
                             Some(config.timeout)))
  {
    var effects := SendEffects(config, payload, tokenReply, decisionReply);
    NoPostsInOutcome(decisionReply);
    match config.auth
    case None =>
      var post := Post(config.targetEndpoint, DecisionJson(payload), Headers(false, ""), Some(config.timeout));
      PostsAppend([post], DecisionOutcome(decisionReply));
    case Some(auth) =>
      var tokenPost := Post(auth.tokenEndpointUrl, FormData(TokenForm(auth)), map[], None);
      match TokenStep(tokenReply)
      case Err(error) =>
        assert Posts(effects) == [tokenPost] + Posts([SendErrorLogged(error)]);
      case Ok(token) =>
        var post := Post(config.targetEndpoint, DecisionJson(payload), Headers(true, token), Some(config.timeout));
        PostsAppend([tokenPost, post], DecisionOutcome(decisionReply));
        assert Posts([tokenPost, post]) == [tokenPost] + Posts([post]);
  }

  /** Sending never raises: every failure ends the sequence with one logged
      error event, whose category is that of the first failing step; a
      successful exchange logs nothing. For a 4xx/5xx reply the source logs
      two lines (the status and the response content); the one
      `HttpStatusError` event stands for both. */
  lemma SendFailureIsLogged(config: HttpOutputConfig, payload: map<string, JsonValue>, tokenReply: TokenReply, decisionReply: DecisionReply)
    ensures var effects := SendEffects(config, payload, tokenReply, decisionReply);
      var tokenFailed := config.auth.Some? && TokenStep(tokenReply).Err?;
      var decisionFailed := decisionReply.DecisionRaised? || 400 <= decisionReply.status < 600;
      && |effects| > 0
      && (effects[|effects| - 1].SendErrorLogged? <==> tokenFailed || decisionFailed)
      && (tokenFailed ==> effects[|effects| - 1] == SendErrorLogged(TokenStep(tokenReply).error))
      && (!tokenFailed && decisionReply.DecisionRaised? ==> effects[|effects| - 1] == SendErrorLogged(Caught(decisionReply.raised)))
      && (!tokenFailed && decisionReply.DecisionReplied? && 400 <= decisionReply.status < 600 ==>
            effects[|effects| - 1] == SendErrorLogged(HttpStatusError(decisionReply.status)))
      && (forall i :: 0 <= i < |effects| - 1 ==> effects[i].Post?)
  {
  }

  /** The exchange the tests script: the token endpoint answers
      `{"access_token": "tok"}`, so the decision goes out with `Bearer tok`; a
      reply without the field sends the literal `Bearer None`. */
  lemma BearerTokenFromReply(config: HttpOutputConfig, payload: map<string, JsonValue>, decisionReply: DecisionReply)
    requires config.auth.Some?
    ensures SendEffects(config, payload, TokenReplied(JsonObject(map["access_token" := "tok"])), decisionReply)[1].headers["Authorization"] == "Bearer tok"
    ensures SendEffects(config, payload, TokenReplied(JsonObject(map[])), decisionReply)[1].headers["Authorization"] == "Bearer None"
  {
  }

  /** `HttpOutput`: holds its configuration and sends one decision per call. */
  class HttpOutput {
    const config: HttpOutputConfig

    constructor (config: HttpOutputConfig)
      ensures this.config == config
    {
      this.config := config;
    }

    /** Builds the payload, then runs the exchange; whatever the network does,
        the call returns normally. */
    method SendDecisionMessage(msg: SaeMessage, saeId: string, tokenReply: TokenReply, decisionReply: DecisionReply)
      returns (effects: seq<HttpEffect>)
      ensures effects == SendEffects(config, CreateDecisionMsg(config, msg, saeId), tokenReply, decisionReply)
    {
      var payload := CreateDecisionMsg(config, msg, saeId);
      effects := [];
      var headers: map<string, string>;
      if config.auth.Some? {
        var auth := config.auth.value;
        effects := effects + [Post(auth.tokenEndpointUrl, FormData(TokenForm(auth)), map[], None)];
        var token := TokenStep(tokenReply);
        if token.Err? {
          effects := effects + [SendErrorLogged(token.error)];
          return;
        }
        headers := Headers(true, token.value);
      } else {
        headers := Headers(false, "");
      }
      effects := effects + [Post(config.targetEndpoint, DecisionJson(payload), headers, Some(config.timeout))];
      match decisionReply
      case DecisionRaised(raised) =>
        effects := effects + [SendErrorLogged(Caught(raised))];
      case DecisionReplied(status) =>
        if 400 <= status < 600 {
          effects := effects + [SendErrorLogged(HttpStatusError(status))];
        }
    }
  }
}
