# Order-tracking Messenger webhook: a Dafny model

This project models the webhook handler of a Messenger chatbot that looks up
parcel orders. It covers:

- the subscription handshake of `GET /webhook`;
- the envelope check and per-entry loop of `POST /webhook`;
- the reply composer `handleMessage`, with its tracking command `/t <code>`,
  its picture-confirmation card and its help text;
- the payload table of `handlePostback`;
- the request body that `callSendAPI` hands to the Send API.

Every network call is replaced by something the model can observe:

- The order-tracking API is a parameter `lookup`. It maps the `keySearch`
  string to `Responded(isSuccess)` or `Failed`.
- The Send API is an `outbox` field of `Dispatch.WebhookServer`. Every call
  of `callSendAPI` appends one `{recipient: {id}, message}` body to it.
- The requests made to the order-tracking API are logged in the
  `trackingQueries` field.
- Each endpoint returns its answer to the webhook request.

JavaScript `undefined` is `Option.None`. Query parameters are truthy when
present and non-empty.

Modules:

- `JsValues` (`js_values.dfy`): truthiness, template interpolation,
  `includes` and `split`.
- `Messages` (`messages.dfy`): the data model.
- `Handshake` (`handshake.dfy`): `GET /webhook`.
- `Composer` (`composer.dfy`): `handleMessage` and `handlePostback` as
  functions.
- `Dispatch` (`dispatch.dfy`): the entry loop, the specification functions
  of its effects, and the `WebhookServer` class whose methods perform them.

Behaviours of the code that the model reproduces:

- **A failed lookup sends nothing.** The `catch` block at
  src/index.js:148-152 reads `orderIds`, which was declared with `const`
  inside the `try` block (src/index.js:132). So the catch block throws a
  `ReferenceError`, and no reply is sent. `Composer.MessageResponse` returns
  `Err(ReferenceError)`, and `Dispatch.LookupFailureSendsNothing` states that
  nothing is sent.
- **A message without text fails early.** The code calls `text.includes`
  without checking for `text` (src/index.js:130). A message without text
  raises a `TypeError` and is never answered, even when it carries an
  attachment.
- **Unknown postbacks get their own text.** An unknown postback payload does
  not get the prompt that `"TRACKING"` gets. It gets the "invalid syntax"
  help, the same text a plain message gets (src/index.js:221-225). `Composer.UnknownPayloadGetsHelp` states this.
- **The code is the second word.** The tracking code is the second
  space-separated word of the whole text, not the word after `/t`. When the
  text has no space, the code is the string `"undefined"`
  (`Composer.CodeIsSecondWordNotArgument`, `Composer.KeyUndefinedWithoutSpace`).

## Model

| member | source | states |
|---|---|---|
| `Handshake.VerifySubscription` | src/index.js:47-62 | The challenge is echoed with 200 exactly when mode is "subscribe" and the token equals the configured one. 403 is returned exactly when both parameters are truthy and do not both match. There is no reply exactly when either parameter is missing or empty. |
| `Handshake.UnsetTokenNeverVerifies` | src/index.js:44-61 | With no VERIFY_TOKEN configured, every handshake is answered 403 or not at all. |
| `Messages.SendEnvelope` | src/index.js:106-111 | The Send API body is addressed to the sender's PSID and carries the composed response unchanged. |
| `Dispatch.WebhookServer.CallSendApi` | src/index.js:101-123 | Each call appends exactly one `{recipient: {id}, message}` body to the outbox, and nothing else changes. |
| `JsValues.IncludesIff` | src/index.js:130 | `includes` is true exactly when the substring occurs at some index. |
| `JsValues.IncludesAt` | src/index.js:130 | An occurrence at any index makes `includes` true. |
| `JsValues.Split` | src/index.js:132 | `split(" ")` always yields at least one piece. |
| `JsValues.JoinSplit` | src/index.js:132 | Joining the pieces of `split(" ")` with a space gives back the text. |
| `JsValues.SplitSeparatorFree` | src/index.js:132 | No piece of `split(" ")` contains a space. |
| `JsValues.SplitWithoutSeparator` | src/index.js:132 | A text without a space splits into itself alone. |
| `JsValues.SplitAtFirstSeparator` | src/index.js:132 | The first space ends the first piece, and the rest is split on its own. |
| `JsValues.SplitUnique` | src/index.js:132 | The split is the only space-free decomposition that joins back to the text. |
| `JsValues.SplitSingleIff` | src/index.js:132 | There is a single piece exactly when the text has no space. |
| `Composer.TrackingCodeAbsent` | src/index.js:132 | `split(" ")[1]` is undefined exactly when the text has no space. |
| `Composer.TrackingCodeOfSecondWord` | src/index.js:132 | The code is the second word, between the first space and the next space or the end. |
| `Composer.TrackingCodeIsSecondWord` | src/index.js:132 | Every defined code is such a second word of the text. |
| `Composer.LookupKey` | src/index.js:130-135 | The order-tracking API is queried exactly when the message has text containing "/t". |
| `Composer.RepliesShowCode` | src/index.js:137-147 | The found reply contains the code and the URL `https://globex.vn/tra-cuu?trackingNumber=<code>`. The not-found reply contains the code. |
| `Composer.MessageResponse` | src/index.js:126-199 | The branches are tried in order: no text raises TypeError; then "/t" anywhere in the text runs the lookup, and a failed lookup raises ReferenceError; then an attachments field shows the first attachment's url, or raises TypeError when there is no readable first attachment; otherwise the help text is sent. |
| `Composer.MessageFailsIff` | src/index.js:130-156 | A message goes unanswered exactly when: it has no text, or its lookup failed, or it takes the attachment branch without a readable first attachment. |
| `Composer.TrackingReply` | src/index.js:130-153 | On the command branch, attachments are ignored. A positive lookup answers with the code and its tracking URL. A negative lookup answers with the code. A failed lookup raises ReferenceError. |
| `Composer.TrackingExample` | src/index.js:130-142 | "/t ABC123" with a positive lookup answers with the found text for ABC123, which contains ABC123 and its tracking URL. |
| `Composer.CodeIsSecondWordNotArgument` | src/index.js:130-135 | "where is /t X" queries the key "is". |
| `Composer.KeyUndefinedWithoutSpace` | src/index.js:130-134 | Any text containing "/t" but no space queries the key "undefined", because `split(" ")[1]` is undefined and `${orderIds}` prints it as "undefined". |
| `Composer.CommandWithoutSpace` | src/index.js:130-135 | "/tX" queries the key "undefined". |
| `Composer.PictureReply` | src/index.js:154-183 | A picture message without "/t" gets one card. The card's image is `attachments[0].payload.url`, and its buttons are exactly ("Yes!","yes") then ("No!","no"). |
| `Composer.PostbackResponse` | src/index.js:202-228 | Every postback is answered with a text message. |
| `Composer.PostbackSameReply` | src/index.js:209-225 | Two payloads get the same reply exactly when they are equal, or both are "TRACKING"/"get_started", or both are unknown. So "yes", "no", the prompt pair and unknown payloads each get distinct texts. |
| `Composer.UnknownPayloadGetsHelp` | src/index.js:184-225 | An unknown payload gets the same text as a plain message without command or attachment, and not the tracking prompt. |
| `Composer.ConfirmationButtonsAnswered` | src/index.js:167-178 | The card's buttons are postbacks with known payloads. Pressing Yes! is answered "Thanks!" and pressing No! asks for another image. |
| `Dispatch.Dispatched` | src/index.js:72-90 | A send goes back to the sender of `messaging[0]`. An entry without events raises TypeError. (That only `messaging[0]` matters is `Dispatch.OnlyFirstEvent`.) |
| `Dispatch.EntrySends` | src/index.js:85-89 | An entry yields at most one send, and one exactly when its outcome is a send. |
| `Dispatch.Acknowledgement` | src/index.js:66-98 | Anything but `object == "page"` gets 404. A page subscription with entries gets 200 "EVENT_RECEIVED" whatever the entries hold. |
| `Dispatch.Processed` | src/index.js:70-72 | No entry is processed unless `object` is "page". |
| `Dispatch.ConcatAppend` | src/index.js:72 | The effects of a batch are those of its parts in order. |
| `Dispatch.NextEntry` | src/index.js:72-90 | Handling one more entry appends exactly that entry's sends and queries. |
| `Dispatch.AtMostOneSendPerEntry` | src/index.js:72-90 | A batch never produces more sends than it has entries. |
| `Dispatch.SentIff` | src/index.js:72-90 | A body is in the outbox exactly when some entry of the batch dispatched to it. |
| `Dispatch.OnlyFirstEvent` | src/index.js:75 | Events after `messaging[0]` change neither the reply nor the lookups. |
| `Dispatch.EventRouting` | src/index.js:85-89 | A message takes precedence over a postback. An event with neither sends nothing. A message that composes a reply is sent exactly once. A postback is answered from the table. |
| `Dispatch.LookupFailureSendsNothing` | src/index.js:131-153 | A "/t" message whose lookup fails raises ReferenceError and sends nothing. |
| `Dispatch.NoTextSendsNothing` | src/index.js:85-86 | A message without text raises TypeError and sends nothing, whatever attachments or postback the event carries. |
| `Dispatch.WebhookServer.HandleMessage` | src/index.js:126-199 | It returns `MessageResponse`'s result. A composed reply is sent once; on an exception nothing is sent. The lookup key is logged exactly on the command branch. |
| `Dispatch.WebhookServer.HandlePostback` | src/index.js:202-228 | Exactly the table's reply is sent to the sender. |
| `Dispatch.WebhookServer.HandleEntry` | src/index.js:72-90 | The entry's sends and lookups are appended, and its outcome is returned. |
| `Dispatch.WebhookServer.PostWebhook` | src/index.js:66-98 | The returned reply is the acknowledgement. The outbox and the query log grow by the effects of the processed entries, in entry order, and by nothing when `object` is not "page". |

## Left out

- Express setup, dotenv loading, the `GET /` greeting and `app.listen` are process plumbing (src/index.js:23-39, 340-342).
- `handleSetupInfor` and `POST /set` push a constant profile over the network, and their promise never settles (src/index.js:230-284).
- The commented-out block at src/index.js:286-337 and all console logging are not modelled.
- HTTP behaviour of the Send API and the order-tracking API is left out. A failed send is caught and logged in the source, so the outbox records every attempted send. The access token in the Send API URL is not modelled.
- Concurrency is left out. The `forEach(async …)` callbacks are not awaited. A "/t" reply is therefore sent after its lookup settles, which may be after later entries' replies and after the acknowledgement. The model runs entries to completion one after another. It keeps each entry's effects but not the interleaving between entries.
- Unhandled rejections are assumed harmless. Nothing catches a rejected `forEach` callback (a TypeError at src/index.js:79, 130 or 156, or the ReferenceError at 151), nor the route handler's rejection when `entry` is missing (line 72). Recent Node versions exit the process on an unhandled rejection. The outbox would then lose replies still pending, such as a later entry's "/t" reply, and every later request. The model assumes the process keeps running.
- The order-tracking API is a fixed function of the query key. Two lookups with the same key, even within one batch, get the same answer. Answers that change over time are not modelled.
- Dynamic JavaScript typing is left out. Query parameters that Express parses into arrays, a non-string `text`, a missing `sender` object and a missing `messaging` array are not modelled. Every event carries `sender.id` as a string. A missing `messaging` array would throw like an empty one.
- The Vietnamese reply texts are the source's constants, used as opaque strings. Only the code and URL interpolated into them are reasoned about.
