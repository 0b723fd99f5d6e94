/** The reply composer: `handleMessage` (tracking command, picture
    confirmation, help text) and `handlePostback` (a fixed payload table).
    The order-tracking API is the parameter `lookup`, from the `keySearch`
    string to what the request settled to. */
module Composer {
  import opened JsValues
  import opened Messages

  // ------------------------------------------------------------ reply texts

  const ThanksText := "Thanks!"
  const RetryImageText := "Oops, try sending another image."
  /** The usage line shared by the prompt and the invalid-syntax reply. */
  const UsageText := " mã vận đơn với cú pháp : /t (mã vận đơn) hoặc tìm nhiều mã vận đơn : /t (mã vận đơn 1,mã vận đơn 2,...)"
  /** The prompt sent for the "Tracking" menu button and "Get Started". */
  const TrackingPromptText := "Nhập" + UsageText
  /** "Invalid syntax", followed by the same usage line. */
  const InvalidSyntaxText := "Cú pháp không hợp lệ, nhập" + UsageText

  const TrackingUrlPrefix := "https://globex.vn/tra-cuu?trackingNumber="
  const FoundPrefix := "Bấm vào link để xem tình trạng đơn hàng "
  const FoundSuffix := ". Nhập mã đơn hàng để xem tình trạng đơn hàng khác."
  const NotFoundPrefix := "Không tìm thấy tình trạng đơn hàng "
  const NotFoundSuffix := ". Nhập mã vận đơn để xem tình trạng đơn hàng khác."

  /** The public tracking page of one code. */
  function TrackingUrl(code: string): (url: string) {
    TrackingUrlPrefix + code
  }

  /** The reply when the lookup says the order exists. */
  function FoundText(code: string): (text: string) {
    FoundPrefix + code + " : " + TrackingUrl(code) + FoundSuffix
  }

  /** The reply when the lookup says the order does not exist. */
  function NotFoundText(code: string): (text: string) {
    NotFoundPrefix + code + NotFoundSuffix
  }

  /** The found reply shows the code and links to its tracking page; the
      not-found reply shows the code. */
  lemma RepliesShowCode(code: string)
    ensures Includes(FoundText(code), code)
    ensures Includes(FoundText(code), TrackingUrl(code))
    ensures Includes(NotFoundText(code), code)
  {
    var f := FoundText(code);
    var n := |FoundPrefix|;
    var u := n + |code| + 3;
    assert f[n..n + |code|] == code;
    IncludesAt(f, code, n);
    assert f[u..u + |TrackingUrl(code)|] == TrackingUrl(code);
    IncludesAt(f, TrackingUrl(code), u);
    var g := NotFoundText(code);
    assert g[|NotFoundPrefix|..|NotFoundPrefix| + |code|] == code;
    IncludesAt(g, code, |NotFoundPrefix|);
  }

  // --------------------------------------------------------- tracking code

  /** `text.split(" ")[1]`: undefined when the text has no space. */
  function TrackingCode(text: string): (code: Option<string>) {
    var parts := Split(text, ' ');
    if |parts| >= 2 then Some(parts[1]) else None
  }

  /** `text` is a first word `w`, one space, the code `c`, then either
      nothing or a further space. */
  ghost predicate SecondWord(text: string, w: string, c: string, rest: string) {
    && text == w + " " + c + rest
    && ' ' !in w && ' ' !in c
    && (rest == "" || rest[0] == ' ')
  }

  /** There is no code exactly when the text has no space. */
  lemma TrackingCodeAbsent(text: string)
    ensures TrackingCode(text).None? <==> ' ' !in text
  {
    SplitSingleIff(text, ' ');
  }

  /** The second space-delimited word is the code. */
  lemma TrackingCodeOfSecondWord(text: string, w: string, c: string, rest: string)
    requires SecondWord(text, w, c, rest)
    ensures TrackingCode(text) == Some(c)
  {
    assert text == w + [' '] + (c + rest);
    SplitAtFirstSeparator(w, ' ', c + rest);
    if rest == "" {
      assert c + rest == c;
      SplitWithoutSeparator(c, ' ');
    } else {
      assert c + rest == c + [' '] + rest[1..];
      SplitAtFirstSeparator(c, ' ', rest[1..]);
    }
  }

  /** Whenever there is a code, it is the second space-delimited word. */
  lemma TrackingCodeIsSecondWord(text: string)
    requires TrackingCode(text).Some?
    ensures exists w, rest :: SecondWord(text, w, TrackingCode(text).value, rest)
  {
    var parts := Split(text, ' ');
    JoinSplit(text, ' ');
    SplitSeparatorFree(text, ' ');
    assert ' ' !in parts[0] && ' ' !in parts[1];
    var w, c := parts[0], parts[1];
    var rest := if |parts| == 2 then "" else [' '] + Join(parts[2..], ' ');
    assert parts[1..][1..] == parts[2..];
    assert Join(parts[1..], ' ') == c + rest;
    assert SecondWord(text, w, c, rest);
  }

  /** The `keySearch` value requested from the order-tracking API, when the
      message takes the command branch. */
  function LookupKey(msg: Message): (key: Option<string>)
    ensures key.Some? <==> msg.text.Some? && Includes(msg.text.value, "/t")
  {
    match msg.text
    case Some(text) =>
      if Includes(text, "/t") then Some(Interpolate(TrackingCode(text))) else None
    case None => None
  }

  // ------------------------------------------------------- handleMessage

  /** The card that asks whether the received picture is the right one. */
  function PictureConfirmation(imageUrl: Option<string>): (card: Outgoing) {
    Template("generic", [Element("Is this the right picture?", "Tap a button to answer.", imageUrl,
                                 [Button("postback", "Yes!", "yes"), Button("postback", "No!", "no")])])
  }

  /** The reply `handleMessage` composes, or the exception it raises before
      sending anything. */
  function MessageResponse(msg: Message, lookup: string -> LookupResult): (r: Result<Outgoing>)
    // a message without text fails on `text.includes`
    ensures msg.text.None? ==> r == Err(TypeError)
    // the command branch runs exactly the lookup; a rejected lookup raises
    ensures LookupKey(msg).Some? ==>
              r == match lookup(LookupKey(msg).value)
                   case Failed => Err(ReferenceError)
                   case Responded(found) =>
                     Ok(Text(if found then FoundText(LookupKey(msg).value) else NotFoundText(LookupKey(msg).value)))
    // otherwise a present attachments array decides, and its first element's url is shown
    ensures msg.text.Some? && LookupKey(msg).None? && msg.attachments.Some? ==>
              if |msg.attachments.value| > 0 && msg.attachments.value[0].payload.Some?
              then r == Ok(PictureConfirmation(msg.attachments.value[0].payload.value.url))
              else r == Err(TypeError)
    // and a text message with neither gets the help text
    ensures msg.text.Some? && LookupKey(msg).None? && msg.attachments.None? ==> r == Ok(Text(InvalidSyntaxText))
  {
    match msg.text
    case None => Err(TypeError)
    case Some(text) =>
      if Includes(text, "/t") then
        var key := Interpolate(TrackingCode(text));
        match lookup(key)
        case Failed => Err(ReferenceError)
        case Responded(found) => Ok(Text(if found then FoundText(key) else NotFoundText(key)))
      else if msg.attachments.Some? then
        var attachments := msg.attachments.value;
        if |attachments| == 0 then Err(TypeError)
        else match attachments[0].payload
          case None => Err(TypeError)
          case Some(p) => Ok(PictureConfirmation(p.url))
      else Ok(Text(InvalidSyntaxText))
  }

  /** The reasons a message gets no reply: no text, a rejected lookup on the
      command branch, or an unreadable first attachment. */
  lemma MessageFailsIff(msg: Message, lookup: string -> LookupResult)
    ensures MessageResponse(msg, lookup).Err? <==>
              || msg.text.None?
              || (LookupKey(msg).Some? && lookup(LookupKey(msg).value) == Failed)
              || (msg.text.Some? && LookupKey(msg).None? && msg.attachments.Some? &&
                  (|msg.attachments.value| == 0 || msg.attachments.value[0].payload.None?))
  {
  }

  /** A successful lookup answers with the code and its tracking link, a
      negative one with the code; the attachments do not matter. */
  lemma TrackingReply(text: string, attachments: Option<seq<Attachment>>, lookup: string -> LookupResult)
    requires Includes(text, "/t")
    ensures var key := Interpolate(TrackingCode(text));
            var r := MessageResponse(Message(Some(text), attachments), lookup);
            && r == MessageResponse(Message(Some(text), None), lookup)
            && (lookup(key) == Responded(true) ==>
                  r.Ok? && r.value.Text? && Includes(r.value.text, key) && Includes(r.value.text, TrackingUrl(key)))
            && (lookup(key) == Responded(false) ==>
                  r.Ok? && r.value.Text? && Includes(r.value.text, key))
            && (lookup(key) == Failed ==> r == Err(ReferenceError))
  {
    RepliesShowCode(Interpolate(TrackingCode(text)));
  }

  /** "/t ABC123" with a positive lookup links to the tracking page of ABC123. */
  lemma TrackingExample(lookup: string -> LookupResult)
    requires lookup("ABC123") == Responded(true)
    ensures MessageResponse(Message(Some("/t ABC123"), None), lookup)
            == Ok(Text(FoundText("ABC123")))
    ensures Includes(FoundText("ABC123"), "ABC123")
    ensures Includes(FoundText("ABC123"), TrackingUrl("ABC123"))
  {
    var text := "/t ABC123";
    assert text[..2] == "/t";
    assert SecondWord(text, "/t", "ABC123", "");
    TrackingCodeOfSecondWord(text, "/t", "ABC123", "");
    RepliesShowCode("ABC123");
  }

  /** The command may stand anywhere, but the code is always the second word:
      "where is /t X" looks up "is". */
  lemma CodeIsSecondWordNotArgument()
    ensures LookupKey(Message(Some("where is /t X"), None)) == Some("is")
  {
    var text := "where is /t X";
    assert text[9..11] == "/t";
    IncludesAt(text, "/t", 9);
    assert SecondWord(text, "where", "is", " /t X");
    TrackingCodeOfSecondWord(text, "where", "is", " /t X");
  }

  /** Without a space after the command the lookup key is "undefined". */
  lemma CommandWithoutSpace()
    ensures LookupKey(Message(Some("/tX"), None)) == Some("undefined")
  {
  }

  /** A command without a space after the first word looks up "undefined". */
  lemma KeyUndefinedWithoutSpace(text: string, attachments: Option<seq<Attachment>>)
    requires Includes(text, "/t") && ' ' !in text
    ensures LookupKey(Message(Some(text), attachments)) == Some("undefined")
  {
    TrackingCodeAbsent(text);
  }

  /** A picture without the command gets the confirmation card, whose image is
      the first attachment's url and whose buttons are Yes!/yes then No!/no. */
  lemma PictureReply(text: string, first: MediaPayload, more: seq<Attachment>, lookup: string -> LookupResult)
    requires !Includes(text, "/t")
    ensures var r := MessageResponse(Message(Some(text), Some([Attachment(Some(first))] + more)), lookup);
            && r.Ok? && r.value.Template? && |r.value.elements| == 1
            && r.value.elements[0].imageUrl == first.url
            && [(r.value.elements[0].buttons[0].title, r.value.elements[0].buttons[0].payload),
                (r.value.elements[0].buttons[1].title, r.value.elements[0].buttons[1].payload)]
               == [("Yes!", "yes"), ("No!", "no")]
            && |r.value.elements[0].buttons| == 2
  {
  }

  // ------------------------------------------------------ handlePostback

  /** The payloads `handlePostback` recognises. */
  predicate KnownPayload(payload: string) {
    payload in {"yes", "no", "TRACKING", "get_started"}
  }

  /** The text `handlePostback` replies with. */
  function PostbackResponse(payload: string): (r: Outgoing)
    ensures r.Text?
  {
    if payload == "yes" then Text(ThanksText)
    else if payload == "no" then Text(RetryImageText)
    else if payload == "TRACKING" then Text(TrackingPromptText)
    else if payload == "get_started" then Text(TrackingPromptText)
    else Text(InvalidSyntaxText)
  }

  /** Two payloads get the same reply exactly when they are equal, both ask
      for the tracking prompt, or both are unknown. */
  lemma PostbackSameReply(p: string, q: string)
    ensures PostbackResponse(p) == PostbackResponse(q) <==>
              || p == q
              || (p in {"TRACKING", "get_started"} && q in {"TRACKING", "get_started"})
              || (!KnownPayload(p) && !KnownPayload(q))
  {
  }

  /** An unknown payload gets the same help text as a plain message that is
      neither a command nor a picture, not the tracking prompt. */
  lemma UnknownPayloadGetsHelp(payload: string, text: string, lookup: string -> LookupResult)
    requires !KnownPayload(payload) && !Includes(text, "/t")
    ensures MessageResponse(Message(Some(text), None), lookup) == Ok(PostbackResponse(payload))
    ensures PostbackResponse(payload) != PostbackResponse("TRACKING")
  {
  }

  /** Pressing a button of the confirmation card is answered by the postback
      table: Yes! thanks the user, No! asks for another image. */
  lemma ConfirmationButtonsAnswered(imageUrl: Option<string>)
    ensures var buttons := PictureConfirmation(imageUrl).elements[0].buttons;
            && |buttons| == 2
            && PostbackResponse(buttons[0].payload) == Text(ThanksText)
            && PostbackResponse(buttons[1].payload) == Text(RetryImageText)
            && forall b :: b in buttons ==> b.kind == "postback" && KnownPayload(b.payload)
  {
  }
}
