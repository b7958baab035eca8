/** The Telegram webhook handler of cmd/webhook/main.go (the Opus revision):
    routes an update, answers inline queries with an empty result list, and
    turns a message addressed to the bot into a voice note (Polly PCM, Ogg/Opus
    encoding, public S3 upload, `sendVoice` reply in the webhook response). */
module Webhook {
  import opened Wrappers
  import opened GoStrings
  import opened Aws
  import opened Events

  const MethodSendVoice: string := "sendVoice"
  const MethodAnswerInlineQuery: string := "answerInlineQuery"

  /** The mention a message must start with to be handled (hard-coded in the router). */
  const Mention: string := "@BlackAbbot"

  /** Longest text, in bytes, sent to Polly. */
  const MaxTextLength: nat := 140

  /** The fixed pool a voice is drawn from. */
  const Voices: seq<VoiceId> := [Salli, Joanna, Ivy, Kendra, Kimberly, Kevin, Matthew, Justin, Joey]

  /** The encoder configuration of convertToOpus. */
  const OpusConfig: OggStream := OggStream(8000, 1, 40000, 20.0, 12000)

  datatype MessageFrom = MessageFrom(lastName: string, id: int, firstName: string, username: string)
  datatype Message = Message(date: int, chatId: int, messageId: int, from: MessageFrom, text: string)
  datatype User = User(id: int, firstName: string)
  datatype InlineQuery = InlineQuery(id: string, from: User, query: string)
  datatype Update = Update(updateId: int, message: Option<Message>, inlineQuery: Option<InlineQuery>)

  datatype InlineQueryResult = InlineQueryResult

  /** The method objects the handler marshals into its response body. */
  datatype Payload =
    | AnswerInlineQuery(methodName: string, inlineQueryId: string, results: seq<InlineQueryResult>)
    | SendVoiceMethodResponse(methodName: string, chatId: int, voice: string)

  type Response = ProxyResponse<Payload>

  /** Process configuration read from the environment. */
  datatype Settings = Settings(bucket: string, botName: string)

  /** The outcomes of the external calls, as functions of what is passed to them. */
  datatype Services = Services(
    loadConfig: Outcome<string>,
    synthesize: SynthesizeSpeechInput -> Result<Stream, string>,
    encode: (OggStream, Bytes) -> Result<Bytes, string>,
    upload: PutObjectInput<Bytes> -> Result<string, string>)

  function ErrorResponse(err: string, statusCode: int): (r: Response)
    ensures r.statusCode == statusCode && r.body == Raw(err) && r.headers == map[]
  {
    ProxyResponse(statusCode, map[], Raw(err))
  }

  function NopResponse(): (r: Response)
    ensures r.statusCode == 200 && r.body == Raw("") && r.headers == map[]
  {
    ProxyResponse(200, map[], Raw(""))
  }

  /** json.Marshal of these payloads cannot fail, so the reply is always 200. */
  function JsonResponse(content: Payload): (r: Response)
    ensures r.statusCode == 200 && r.body == Json(content) && r.headers == JsonHeaders
  {
    ProxyResponse(200, JsonHeaders, Json(content))
  }

  /** trimText: drops one leading `botName + " "`, then keeps at most 140 bytes. */
  function TrimText(botName: string, t: string): (r: string)
    ensures |r| <= MaxTextLength
    ensures var rest := TrimPrefix(t, botName + " ");
      && HasPrefix(rest, r)
      && (|rest| <= MaxTextLength ==> r == rest)
      && (|rest| > MaxTextLength ==> |r| == MaxTextLength)
  {
    Truncate(TrimPrefix(t, botName + " "), MaxTextLength)
  }

  /** The bot-name prefix is removed once: a doubled prefix leaves one copy. */
  lemma TrimTextRemovesOnce(botName: string, rest: string)
    requires |botName + " " + rest| <= MaxTextLength
    ensures TrimText(botName, botName + " " + botName + " " + rest) == botName + " " + rest
  {
    var p := botName + " ";
    assert botName + " " + botName + " " + rest == p + p + rest;
    assert p + rest == botName + " " + rest;
    TrimPrefixOnce(p, rest);
  }

  /** A text that does not start with the prefix is only truncated. */
  lemma TrimTextWithoutPrefix(botName: string, t: string)
    requires !HasPrefix(t, botName + " ")
    ensures HasPrefix(t, TrimText(botName, t))
    ensures |t| <= MaxTextLength ==> TrimText(botName, t) == t
  {
  }

  /** The Polly request of textToSpeech: the trimmed text, 8 kHz, the neural
      engine and the voice at `voiceIndex` (the value rand.Intn(9) drew). */
  function SpeechInput(text: string, format: OutputFormat, voiceIndex: int): (input: SynthesizeSpeechInput)
    requires 0 <= voiceIndex < |Voices|
    ensures input.voiceId == Voices[voiceIndex] && input.text == text && input.outputFormat == format
    ensures input.sampleRate == Some("8000") && input.engine == Neural
  {
    SynthesizeSpeechInput(format, text, Some("8000"), Neural, Voices[voiceIndex])
  }

  /** Every index rand.Intn(9) can return names a pool voice, and each voice
      has exactly one index, so a uniform draw gives a uniform voice. */
  lemma VoicePoolIsIndexedOnce()
    ensures |Voices| == 9
    ensures forall v: VoiceId :: v in Voices
    ensures forall i, j :: 0 <= i < j < |Voices| ==> Voices[i] != Voices[j]
  {
    forall v: VoiceId ensures v in Voices {
      var i := match v
        case Salli => 0 case Joanna => 1 case Ivy => 2
        case Kendra => 3 case Kimberly => 4 case Kevin => 5
        case Matthew => 6 case Justin => 7 case Joey => 8;
      assert Voices[i] == v;
    }
  }

  /** textToSpeech: Polly's error is wrapped as "decompress POLLY FAILED: ...". */
  function TextToSpeech(svc: Services, text: string, format: OutputFormat, voiceIndex: int): (r: Result<Stream, string>)
    requires 0 <= voiceIndex < |Voices|
    ensures var polly := svc.synthesize(SpeechInput(text, format, voiceIndex));
      && (r.Ok? <==> polly.Ok?)
      && (r.Ok? ==> r.value == polly.value)
      && (r.Err? ==> r.error == "decompress POLLY FAILED: " + polly.error)
  {
    match svc.synthesize(SpeechInput(text, format, voiceIndex))
    case Ok(stream) => Ok(stream)
    case Err(e) => Err("decompress POLLY FAILED: " + e)
  }

  /** convertToOpus: reads the whole stream, then encodes it; either error is
      passed on unchanged. */
  function ConvertToOpus(svc: Services, audio: Stream): (r: Result<Bytes, string>)
    ensures audio.readAll.Err? ==> r == Err(audio.readAll.error)
    ensures audio.readAll.Ok? ==> r == svc.encode(OpusConfig, audio.readAll.value)
  {
    match audio.readAll
    case Err(e) => Err(e)
    case Ok(pcm) => svc.encode(OpusConfig, pcm)
  }

  /** The upload of saveToStorage: a public Ogg object named by the fresh uuid. */
  function VoiceObject(settings: Settings, filename: string, audio: Bytes): (put: PutObjectInput<Bytes>)
    ensures put.bucket == settings.bucket && put.key == filename && put.body == audio
    ensures put.contentType == "audio/ogg" && put.acl == PublicRead
  {
    PutObjectInput(settings.bucket, filename, audio, "audio/ogg", PublicRead)
  }

  /** saveToStorage: S3's error is wrapped as "decompress S3 FAILED: ...". */
  function SaveToStorage(svc: Services, settings: Settings, filename: string, audio: Bytes): (r: Result<string, string>)
    ensures var s3 := svc.upload(VoiceObject(settings, filename, audio));
      && (r.Ok? <==> s3.Ok?)
      && (r.Ok? ==> r.value == s3.value)
      && (r.Err? ==> r.error == "decompress S3 FAILED: " + s3.error)
  {
    match svc.upload(VoiceObject(settings, filename, audio))
    case Ok(location) => Ok(location)
    case Err(e) => Err("decompress S3 FAILED: " + e)
  }

  /** handleMessage: synthesize, convert, upload, with an early 500 carrying
      the error text at the first failure. A 200 always carries a sendVoice to
      the message's chat with a URI the upload of the encoded speech returned. */
  function HandleMessage(svc: Services, settings: Settings, msg: Message, voiceIndex: int, filename: string): (r: Response)
    requires 0 <= voiceIndex < |Voices|
    ensures r.statusCode == 200 || r.statusCode == 500
    ensures r.statusCode == 200 <==> r.body.Json?
    ensures r.statusCode == 500 ==> r.headers == map[]
    ensures r.statusCode == 200 ==> r.headers == JsonHeaders
    ensures r.body.Json? ==>
      && r.body.payload.SendVoiceMethodResponse?
      && r.body.payload.methodName == MethodSendVoice
      && r.body.payload.chatId == msg.chatId
    ensures var speech := TextToSpeech(svc, TrimText(settings.botName, msg.text), Pcm, voiceIndex);
      && (speech.Err? ==> r.body == Raw(speech.error))
      && (speech.Ok? && ConvertToOpus(svc, speech.value).Err? ==> r.body == Raw(ConvertToOpus(svc, speech.value).error))
      && (speech.Ok? && ConvertToOpus(svc, speech.value).Ok? ==>
            var stored := SaveToStorage(svc, settings, filename, ConvertToOpus(svc, speech.value).value);
            && (stored.Err? ==> r.body == Raw(stored.error))
            && (stored.Ok? ==> r.body.Json? && r.body.payload.voice == stored.value))
  {
    var text := TrimText(settings.botName, msg.text);
    match TextToSpeech(svc, text, Pcm, voiceIndex)
    case Err(e) => ErrorResponse(e, 500)
    case Ok(pcm) =>
      match ConvertToOpus(svc, pcm)
      case Err(e) => ErrorResponse(e, 500)
      case Ok(audio) =>
        match SaveToStorage(svc, settings, filename, audio)
        case Err(e) => ErrorResponse(e, 500)
        case Ok(uri) => JsonResponse(SendVoiceMethodResponse(MethodSendVoice, msg.chatId, uri))
  }

  /** handleInlineQuery: echoes the query id with no results. */
  function HandleInlineQuery(query: InlineQuery): (r: Response)
    ensures r.statusCode == 200 && r.body.Json? && r.headers == JsonHeaders
    ensures r.body.payload == AnswerInlineQuery(MethodAnswerInlineQuery, query.id, [])
  {
    JsonResponse(AnswerInlineQuery(MethodAnswerInlineQuery, query.id, []))
  }

  /** A message the router hands to handleMessage. */
  predicate IsAddressed(update: Update) {
    update.message.Some? && HasPrefix(update.message.value.text, Mention)
  }

  /** handleRequest. `body` is the outcome of unmarshalling the request body. */
  function HandleRequest(svc: Services, settings: Settings, body: Result<Update, string>, voiceIndex: int, filename: string): (r: Response)
    requires 0 <= voiceIndex < |Voices|
    ensures r.statusCode == 400 <==> body.Err?
    ensures body.Err? ==> r == ErrorResponse(body.error, 400)
    ensures body.Ok? && svc.loadConfig.Fail? ==> r == ErrorResponse(svc.loadConfig.error, 500)
    ensures body.Ok? && svc.loadConfig.Pass? && body.value.inlineQuery.Some? ==>
      r == HandleInlineQuery(body.value.inlineQuery.value)
    ensures body.Ok? && svc.loadConfig.Pass? && body.value.inlineQuery.None? ==>
      (IsAddressed(body.value) <==> r != NopResponse())
    ensures r.body.Json? && r.body.payload.SendVoiceMethodResponse? ==>
      && body.Ok? && body.value.inlineQuery.None? && IsAddressed(body.value)
      && r.body.payload.chatId == body.value.message.value.chatId
    ensures body.Ok? && svc.loadConfig.Pass? && body.value.inlineQuery.None? && IsAddressed(body.value) ==>
      r == HandleMessage(svc, settings, body.value.message.value, voiceIndex, filename)
  {
    match body
    case Err(e) => ErrorResponse(e, 400)
    case Ok(update) =>
      match svc.loadConfig
      case Fail(e) => ErrorResponse(e, 500)
      case Pass =>
        if update.inlineQuery.Some? then HandleInlineQuery(update.inlineQuery.value)
        else if IsAddressed(update) then HandleMessage(svc, settings, update.message.value, voiceIndex, filename)
        else NopResponse()
  }
}
