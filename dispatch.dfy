/** The webhook endpoints: the POST /webhook entry loop, the per-entry
    routing to `handleMessage` or `handlePostback`, `callSendAPI`, and the
    answers to both webhook requests. The network is observed through three
    fields of `WebhookServer`, the bodies handed to the Send API and the
    `keySearch` values requested from the order-tracking API; each endpoint
    returns its answer to the webhook request. */
module Dispatch {
  import opened JsValues
  import opened Messages
  import opened Handshake
  import opened Composer

  // ------------------------------------------------------- specification

  /** What handling one entry came to: one send, nothing, or a rejected
      callback promise. Nothing in the handler catches that rejection; the
      model takes it to leave the process running, so later entries and
      later requests are still served. */
  datatype EntryOutcome = Sent(request: SendRequest) | Ignored | Threw(error: JsError)

  /** The outcome of the `forEach` callback for one entry: only
      `messaging[0]` is read, and a message wins over a postback. */
  function Dispatched(entry: Entry, lookup: string -> LookupResult): (o: EntryOutcome)
    // every reply goes back to the sender of the first event
    ensures o.Sent? ==> |entry.messaging| > 0 && o.request.recipientId == entry.messaging[0].senderId
    // an entry without events fails on `webhookEvent.sender`
    ensures |entry.messaging| == 0 ==> o == Threw(TypeError)
  {
    if |entry.messaging| == 0 then Threw(TypeError)
    else
      var event := entry.messaging[0];
      match event.message
      case Some(m) =>
        (match MessageResponse(m, lookup)
         case Ok(response) => Sent(SendEnvelope(event.senderId, response))
         case Err(e) => Threw(e))
      case None =>
        if event.postback.Some? then Sent(SendEnvelope(event.senderId, PostbackResponse(event.postback.value.payload)))
        else Ignored
  }

  /** The Send API bodies one entry produces. */
  function EntrySends(entry: Entry, lookup: string -> LookupResult): (s: seq<SendRequest>)
    ensures |s| <= 1
    ensures |s| == 1 <==> Dispatched(entry, lookup).Sent?
  {
    match Dispatched(entry, lookup)
    case Sent(request) => [request]
    case _ => []
  }

  /** The order-tracking requests one entry makes. */
  function EntryQueries(entry: Entry): (keys: seq<string>) {
    if |entry.messaging| > 0 && entry.messaging[0].message.Some?
       && LookupKey(entry.messaging[0].message.value).Some?
    then [LookupKey(entry.messaging[0].message.value).value]
    else []
  }

  /** The effects of a batch: those of each entry, in entry order. */
  function Concat<T>(entries: seq<Entry>, effects: Entry -> seq<T>): (all: seq<T>) {
    if entries == [] then [] else effects(entries[0]) + Concat(entries[1..], effects)
  }

  /** The Send API bodies of a batch. */
  function Sends(entries: seq<Entry>, lookup: string -> LookupResult): (sent: seq<SendRequest>) {
    Concat(entries, entry => EntrySends(entry, lookup))
  }

  /** The order-tracking requests of a batch. */
  function Queries(entries: seq<Entry>): (keys: seq<string>) {
    Concat(entries, EntryQueries)
  }

  /** The answer to POST /webhook. */
  function Acknowledgement(body: Envelope): (r: HttpReply)
    // anything but a page subscription is "not found"
    ensures r == Status(404) <==> body.objectType != Some("page")
    // a page subscription with a batch is acknowledged whatever the entries hold
    ensures body.objectType == Some("page") && body.entry.Some? ==> r == Body(200, Some("EVENT_RECEIVED"))
  {
    if body.objectType == Some("page") then
      // without `entry`, `body.entry.forEach` throws before the reply is sent
      if body.entry.Some? then Body(200, Some("EVENT_RECEIVED")) else NoReply
    else Status(404)
  }

  /** The entries POST /webhook processes: none unless it is a page subscription. */
  function Processed(body: Envelope): (entries: seq<Entry>)
    ensures body.objectType != Some("page") ==> entries == []
    ensures body.objectType == Some("page") && body.entry.Some? ==> entries == body.entry.value
  {
    if body.objectType == Some("page") && body.entry.Some? then body.entry.value else []
  }

  // ------------------------------------------------------------ lemmas

  lemma {:induction false} ConcatAppend<T>(a: seq<Entry>, b: seq<Entry>, effects: Entry -> seq<T>)
    ensures Concat(a + b, effects) == Concat(a, effects) + Concat(b, effects)
  {
    if a == [] {
      assert a + b == b;
    } else {
      assert (a + b)[0] == a[0] && (a + b)[1..] == a[1..] + b;
      ConcatAppend(a[1..], b, effects);
    }
  }

  /** Running one more entry appends its effects. */
  lemma NextEntry(entries: seq<Entry>, i: nat, lookup: string -> LookupResult)
    requires i < |entries|
    ensures Sends(entries[..i + 1], lookup) == Sends(entries[..i], lookup) + EntrySends(entries[i], lookup)
    ensures Queries(entries[..i + 1]) == Queries(entries[..i]) + EntryQueries(entries[i])
  {
    assert entries[..i + 1] == entries[..i] + [entries[i]];
    ConcatAppend(entries[..i], [entries[i]], entry => EntrySends(entry, lookup));
    ConcatAppend(entries[..i], [entries[i]], EntryQueries);
    assert [entries[i]][1..] == [];
  }

  /** At most one send per entry. */
  lemma {:induction false} AtMostOneSendPerEntry(entries: seq<Entry>, lookup: string -> LookupResult)
    ensures |Sends(entries, lookup)| <= |entries|
  {
    if entries != [] {
      AtMostOneSendPerEntry(entries[1..], lookup);
    }
  }

  /** A body is sent exactly when some entry of the batch dispatched to it. */
  lemma {:induction false} SentIff(entries: seq<Entry>, lookup: string -> LookupResult, request: SendRequest)
    ensures request in Sends(entries, lookup) <==>
              exists i :: 0 <= i < |entries| && Dispatched(entries[i], lookup) == Sent(request)
  {
    if entries != [] {
      SentIff(entries[1..], lookup, request);
      if request in Sends(entries[1..], lookup) {
        var i :| 0 <= i < |entries[1..]| && Dispatched(entries[1..][i], lookup) == Sent(request);
        assert Dispatched(entries[i + 1], lookup) == Sent(request);
      }
      if exists i :: 0 <= i < |entries| && Dispatched(entries[i], lookup) == Sent(request) {
        var i :| 0 <= i < |entries| && Dispatched(entries[i], lookup) == Sent(request);
        if i > 0 {
          assert Dispatched(entries[1..][i - 1], lookup) == Sent(request);
        }
      }
    }
  }

  /** Only the first event of an entry is considered. */
  lemma OnlyFirstEvent(event: Event, more: seq<Event>, lookup: string -> LookupResult)
    ensures Dispatched(Entry([event] + more), lookup) == Dispatched(Entry([event]), lookup)
    ensures EntryQueries(Entry([event] + more)) == EntryQueries(Entry([event]))
  {
  }

  /** A message takes precedence over a postback, an event with neither sends
      nothing, and a message that composes a reply is sent exactly once. */
  lemma EventRouting(senderId: string, message: Option<Message>, postback: Option<Postback>, lookup: string -> LookupResult)
    ensures var o := Dispatched(Entry([Event(senderId, message, postback)]), lookup);
            && (message.Some? ==> o == Dispatched(Entry([Event(senderId, message, None)]), lookup))
            && (message.None? && postback.None? ==> o == Ignored)
            && (message.Some? && MessageResponse(message.value, lookup).Ok? ==>
                  EntrySends(Entry([Event(senderId, message, postback)]), lookup)
                  == [SendEnvelope(senderId, MessageResponse(message.value, lookup).value)])
            && (message.None? && postback.Some? ==>
                  o == Sent(SendEnvelope(senderId, PostbackResponse(postback.value.payload))))
  {
  }

  /** A rejected order lookup leaves the entry without any reply. */
  lemma LookupFailureSendsNothing(senderId: string, text: string, attachments: Option<seq<Attachment>>,
                                  lookup: string -> LookupResult)
    requires Includes(text, "/t")
    requires lookup(Interpolate(TrackingCode(text))) == Failed
    ensures Dispatched(Entry([Event(senderId, Some(Message(Some(text), attachments)), None)]), lookup) == Threw(ReferenceError)
    ensures EntrySends(Entry([Event(senderId, Some(Message(Some(text), attachments)), None)]), lookup) == []
  {
  }

  /** A message without text raises on `text.includes` and leaves the entry
      without any reply, whatever it carries besides. */
  lemma NoTextSendsNothing(senderId: string, attachments: Option<seq<Attachment>>, postback: Option<Postback>,
                           lookup: string -> LookupResult)
    ensures Dispatched(Entry([Event(senderId, Some(Message(None, attachments)), postback)]), lookup) == Threw(TypeError)
    ensures EntrySends(Entry([Event(senderId, Some(Message(None, attachments)), postback)]), lookup) == []
  {
  }

  // ------------------------------------------------------------ endpoints

  /** The outgoing traffic of the webhook process: what it hands to the Send
      API and what it asks the order-tracking API, across requests. */
  class WebhookServer {
    /** The request bodies handed to the Send API, oldest first. */
    var outbox: seq<SendRequest>
    /** The `keySearch` values requested from the order-tracking API, oldest first. */
    var trackingQueries: seq<string>

    constructor ()
      ensures outbox == [] && trackingQueries == []
    {
      outbox, trackingQueries := [], [];
    }

    /** `callSendAPI`: hands `{recipient: {id}, message}` to the Send API. */
    method CallSendApi(senderPsid: string, response: Outgoing)
      modifies this`outbox
      ensures outbox == old(outbox) + [SendEnvelope(senderPsid, response)]
    {
      outbox := outbox + [SendEnvelope(senderPsid, response)];
    }

    /** `handleMessage`: requests the lookup on the command branch, then sends
        the composed reply, or returns the exception raised before the send. */
    method HandleMessage(senderPsid: string, received: Message, lookup: string -> LookupResult)
      returns (result: Result<Outgoing>)
      modifies this`outbox, this`trackingQueries
      ensures result == MessageResponse(received, lookup)
      ensures trackingQueries == old(trackingQueries) + (if LookupKey(received).Some? then [LookupKey(received).value] else [])
      ensures outbox == old(outbox) + (if result.Ok? then [SendEnvelope(senderPsid, result.value)] else [])
    {
      var key := LookupKey(received);
      if key.Some? {
        trackingQueries := trackingQueries + [key.value];
      }
      result := MessageResponse(received, lookup);
      if result.Ok? {
        CallSendApi(senderPsid, result.value);
      }
    }

    /** `handlePostback`: answers from the payload table. */
    method HandlePostback(senderPsid: string, received: Postback)
      modifies this`outbox
      ensures outbox == old(outbox) + [SendEnvelope(senderPsid, PostbackResponse(received.payload))]
    {
      CallSendApi(senderPsid, PostbackResponse(received.payload));
    }

    /** The `forEach` callback for one entry. */
    method HandleEntry(entry: Entry, lookup: string -> LookupResult) returns (outcome: EntryOutcome)
      modifies this`outbox, this`trackingQueries
      ensures outcome == Dispatched(entry, lookup)
      ensures outbox == old(outbox) + EntrySends(entry, lookup)
      ensures trackingQueries == old(trackingQueries) + EntryQueries(entry)
    {
      if |entry.messaging| == 0 {
        return Threw(TypeError);
      }
      var webhookEvent := entry.messaging[0];
      var senderPsid := webhookEvent.senderId;
      if webhookEvent.message.Some? {
        var result := HandleMessage(senderPsid, webhookEvent.message.value, lookup);
        outcome := match result
                   case Ok(response) => Sent(SendEnvelope(senderPsid, response))
                   case Err(e) => Threw(e);
      } else if webhookEvent.postback.Some? {
        var response := PostbackResponse(webhookEvent.postback.value.payload);
        HandlePostback(senderPsid, webhookEvent.postback.value);
        outcome := Sent(SendEnvelope(senderPsid, response));
      } else {
        outcome := Ignored;
      }
    }

    /** POST /webhook: runs every entry of a page subscription, then
        acknowledges; anything else is answered 404 untouched. */
    method PostWebhook(body: Envelope, lookup: string -> LookupResult) returns (reply: HttpReply)
      modifies this
      ensures reply == Acknowledgement(body)
      ensures outbox == old(outbox) + Sends(Processed(body), lookup)
      ensures trackingQueries == old(trackingQueries) + Queries(Processed(body))
    {
      if body.objectType != Some("page") {
        return Status(404);
      }
      if body.entry.None? {
        // `body.entry.forEach` throws before anything is sent back
        return NoReply;
      }
      var entries := body.entry.value;
      var i := 0;
      while i < |entries|
        invariant 0 <= i <= |entries|
        invariant outbox == old(outbox) + Sends(entries[..i], lookup)
        invariant trackingQueries == old(trackingQueries) + Queries(entries[..i])
      {
        var _ := HandleEntry(entries[i], lookup);
        NextEntry(entries, i, lookup);
        i := i + 1;
      }
      assert entries[..i] == entries;
      reply := Body(200, Some("EVENT_RECEIVED"));
    }
  }
}
