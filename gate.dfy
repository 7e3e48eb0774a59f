/**
 * The signature gate run before an interaction handler: it answers pings, lets correctly
 * signed interactions through and turns every other request away.
 */
module Gate {
  import opened Interaction
  import opened Wrappers
  import ReplySpec

  /** The body of a response the gate sends itself. */
  datatype GateBody = TypedBody(responseType: ResponseType) | PlainBody(text: string)

  /** The gate either lets the request proceed to its handler or answers it itself. */
  datatype GateOutcome = Proceed | Respond(status: int, body: GateBody)

  const BadSignature: string := "Bad request signature"

  /**
   * `verifyDiscordKey`, with the result of the signature check over the raw body, the
   * timestamp header and the configured public key given as `signatureValid`.
   */
  function VerifyDiscordKey(httpMethod: string, bodyType: InteractionType, signatureValid: bool): (r: GateOutcome)
    ensures r.Proceed? <==> httpMethod == "POST" && bodyType != Ping && signatureValid
    ensures r == Respond(200, TypedBody(Pong)) <==> httpMethod == "POST" && bodyType == Ping
    ensures r == Respond(401, PlainBody(BadSignature)) <==> !(httpMethod == "POST" && (bodyType == Ping || signatureValid))
  {
    if httpMethod == "POST" then
      if bodyType == Ping then Respond(200, TypedBody(Pong))
      else if signatureValid then Proceed
      else Respond(401, PlainBody(BadSignature))
    else Respond(401, PlainBody(BadSignature))
  }

  /** The signature decides the outcome exactly for POSTed interactions other than pings. */
  lemma SignatureDecidesExactlyNonPingPosts(httpMethod: string, bodyType: InteractionType)
    ensures VerifyDiscordKey(httpMethod, bodyType, true) != VerifyDiscordKey(httpMethod, bodyType, false)
        <==> httpMethod == "POST" && bodyType != Ping
  {
  }

  /** A request the gate lets through always gets a reply controller from `createInstance`. */
  lemma ProceedingRequestHasController(httpMethod: string, request: Interaction, signatureValid: bool)
    requires VerifyDiscordKey(httpMethod, request.interactionType, signatureValid).Proceed?
    ensures ReplySpec.InstanceFor(request).Some?
  {
  }
}
