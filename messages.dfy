/** The values that cross the webhook: the envelope the messaging platform
    posts, the replies the handler composes, the body handed to the Send API,
    and the HTTP answer to the webhook request itself. */
module Messages {
  import opened JsValues

  // ---------------------------------------------------------------- inbound

  /** `attachments[i].payload`; only its `url` is read. */
  datatype MediaPayload = MediaPayload(url: Option<string>)

  /** One element of `message.attachments`; `payload` may be absent. */
  datatype Attachment = Attachment(payload: Option<MediaPayload>)

  /** `webhookEvent.message`: `text` and `attachments` are both optional. */
  datatype Message = Message(text: Option<string>, attachments: Option<seq<Attachment>>)

  /** `webhookEvent.postback`: the payload of the button that was pressed. */
  datatype Postback = Postback(payload: string)

  /** One messaging sub-event: its sender's PSID and at most a message and a postback. */
  datatype Event = Event(senderId: string, message: Option<Message>, postback: Option<Postback>)

  /** One element of `body.entry`. */
  datatype Entry = Entry(messaging: seq<Event>)

  /** The POSTed body: `objectType` is its `object` field, naming the subscription; `entry` is the batch. */
  datatype Envelope = Envelope(objectType: Option<string>, entry: Option<seq<Entry>>)

  // --------------------------------------------------------------- outbound

  /** A button of a generic template; every button here is of type "postback". */
  datatype Button = Button(kind: string, title: string, payload: string)

  /** One card of a generic template. */
  datatype Element = Element(title: string, subtitle: string, imageUrl: Option<string>, buttons: seq<Button>)

  /** The `message` object handed to the Send API: plain text, or an
      attachment of type "template" holding a template of `templateType`. */
  datatype Outgoing =
    | Text(text: string)
    | Template(templateType: string, elements: seq<Element>)

  /** The request body of `callSendAPI`: `{recipient: {id}, message}`. */
  datatype SendRequest = SendRequest(recipientId: string, message: Outgoing)

  /** The request body `callSendAPI` builds for a reply to `senderPsid`. */
  function SendEnvelope(senderPsid: string, response: Outgoing): (r: SendRequest)
    ensures r.recipientId == senderPsid && r.message == response
  {
    SendRequest(senderPsid, response)
  }

  // --------------------------------------------------------- errors, lookups

  /** The exceptions the handler can raise on its own. */
  datatype JsError = TypeError | ReferenceError

  datatype Result<T> = Ok(value: T) | Err(error: JsError)

  /** What the order-tracking request settled to: a response whose
      `data.isSuccess` has the given truthiness, or a rejection (network
      error, non-2xx status, malformed body). */
  datatype LookupResult = Responded(isSuccess: bool) | Failed

  // ----------------------------------------------------------- HTTP replies

  /** The answer to one webhook request: nothing at all, `res.sendStatus(code)`,
      or `res.status(code).send(body)` (an `undefined` body sends an empty one). */
  datatype HttpReply =
    | NoReply
    | Status(code: nat)
    | Body(code: nat, body: Option<string>)
}
