/** The `POST` handler of the chat route: it checks the `message` field of the
    request body and either rejects it with status 400 or answers with the
    reply of the engine. */
module ChatRoute {
  import opened Wrappers
  import opened JsString
  import opened ChatEngine
  import opened ChatProperties

  /** A value of a parsed JSON body. */
  datatype JsonValue =
    | JNull
    | JBool(b: bool)
    | JNumber(n: real)
    | JString(s: string)
    | JArray(items: seq<JsonValue>)
    | JObject(fields: seq<(string, JsonValue)>)

  /** JavaScript truthiness of the `message` field; `None` is a missing field (`undefined`). */
  predicate Truthy(message: Option<JsonValue>) {
    match message
    case None => false
    case Some(JNull) => false
    case Some(JBool(b)) => b
    case Some(JNumber(n)) => n != 0.0
    case Some(JString(s)) => s != ""
    case Some(_) => true
  }

  /** `typeof message === "string"`. */
  predicate IsString(message: Option<JsonValue>) {
    message.Some? && message.value.JString?
  }

  datatype ResponseBody = ErrorBody(error: string) | MessageBody(message: string)

  /** A JSON response with its HTTP status. */
  datatype ChatResponse = ChatResponse(status: int, body: ResponseBody)

  const InvalidMessage: ChatResponse := ChatResponse(400, ErrorBody("Invalid message"))

  /** The validation and dispatch of `POST`, given the destructured `message` field. */
  function Post(message: Option<JsonValue>): (r: ChatResponse)
    ensures r.status == 400 <==> !(message.Some? && message.value.JString? && message.value.s != "")
    ensures r.status == 400 ==> r == InvalidMessage
    ensures r.status != 400 ==> r.status == 200 && r.body == MessageBody(GenerateResponse(message.value.s))
    ensures r.body.MessageBody? ==> r.body.message in AllReplies
  {
    if !Truthy(message) || !IsString(message) then InvalidMessage
    else
      ReplyRange(message.value.s);
      ChatResponse(200, MessageBody(GenerateResponse(message.value.s)))
  }

  /** The route does not trim: a message of blanks is accepted and answered
      with the fallback menu, not rejected. */
  lemma BlankMessageGetsFallback(s: string)
    requires s != [] && forall i :: 0 <= i < |s| ==> s[i] in {' ', '\t', '\n', '\r'}
    ensures Post(Some(JString(s))) == ChatResponse(200, MessageBody(FallbackReply))
  {
    NoAlnumGetsFallback(s);
  }
}
