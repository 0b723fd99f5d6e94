/** The subscription handshake of GET /webhook: the platform proves it knows
    the verify token and gets its challenge echoed back. */
module Handshake {
  import opened JsValues
  import opened Messages

  /** The reply to GET /webhook with query parameters `hub.mode`,
      `hub.verify_token` and `hub.challenge`, given the configured
      `VERIFY_TOKEN` (which the environment may leave undefined). */
  function VerifySubscription(mode: Option<string>, token: Option<string>,
                              challenge: Option<string>, verifyToken: Option<string>): (r: HttpReply)
    // the challenge is echoed with 200 exactly when the mode is "subscribe" and the token matches
    ensures r == Body(200, challenge) <==> mode == Some("subscribe") && Truthy(token) && token == verifyToken
    // 403 exactly when both parameters are present and non-empty but do not both match
    ensures r == Status(403) <==> Truthy(mode) && Truthy(token) && !(mode == Some("subscribe") && token == verifyToken)
    // no answer at all when either parameter is missing or empty
    ensures r == NoReply <==> !Truthy(mode) || !Truthy(token)
  {
    if Truthy(mode) && Truthy(token) then
      if mode == Some("subscribe") && token == verifyToken then Body(200, challenge)
      else Status(403)
    else NoReply
  }

  /** An unconfigured verify token rejects every handshake that gets an answer. */
  lemma UnsetTokenNeverVerifies(mode: Option<string>, token: Option<string>, challenge: Option<string>)
    ensures VerifySubscription(mode, token, challenge, None) in {Status(403), NoReply}
  {
  }
}
