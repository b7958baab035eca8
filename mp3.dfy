/** The Telegram webhook handler of cmd/main.go (the MP3 revision): a message
    is normalised (command prefixes and one space stripped), spoken by Polly's
    Kevin voice as MP3, uploaded publicly to S3 and answered with a `sendAudio`
    method in the webhook response. */
module Mp3Webhook {
  import opened Wrappers
  import opened GoStrings
  import opened Aws
  import opened Events

  const MethodSendAudio: string := "sendAudio"

  /** The caption limit the length guard was meant to enforce. */
  const MaxTextLength: nat := 140

  datatype MessageFrom = MessageFrom(lastName: string, id: int, firstName: string, username: string)
  datatype Message = Message(date: int, chatId: int, messageId: int, from: MessageFrom, text: string)
  datatype Update = Update(updateId: int, message: Option<Message>)

  datatype SendAudioMethodResponse = SendAudioMethodResponse(
    methodName: string,
    chatId: int,
    audio: string,
    performer: string,
    title: string,
    caption: string)

  type Response = ProxyResponse<SendAudioMethodResponse>

  /** The outcomes of Polly and of the S3 upload, as functions of their inputs.
      The uploader reads the Polly stream itself, so a read failure is an
      upload failure. */
  datatype Services = Services(
    synthesize: SynthesizeSpeechInput -> Result<Stream, string>,
    upload: PutObjectInput<Stream> -> Result<string, string>)

  /** What the trims of handleMessage can remove from the front of a text:
      at most one "/speak", then (only after a "/speak") at most one
      "/speak@BlackAbbot", then at most one space. */
  predicate Removable(p: string) {
    || p == "" || p == " " || p == "/speak" || p == "/speak "
    || p == "/speak/speak@BlackAbbot" || p == "/speak/speak@BlackAbbot "
  }

  /** How many bytes the command trims remove, defined from the text alone:
      the mention trim only fires when "/speak@BlackAbbot" follows a first
      "/speak", i.e. on "/speak/speak@BlackAbbot...". */
  function CommandLength(t: string): (k: nat)
    ensures k <= |t|
    ensures k == 0 || k == 6 || k == 23
  {
    if !HasPrefix(t, "/speak") then 0
    else if HasPrefix(t[6..], "/speak@BlackAbbot") then 23
    else 6
  }

  /** The chain of trims removes a Removable prefix, and removes "/speak"
      whenever the text starts with it. Exactly: the command part of
      CommandLength(t) bytes goes, then one space if one follows. */
  lemma TrimChain(t: string, t0: string, t1: string, t2: string)
    requires t0 == TrimPrefix(t, "/speak")
    requires t1 == TrimPrefix(t0, "/speak@BlackAbbot")
    requires t2 == TrimPrefix(t1, " ")
    ensures HasSuffix(t, t2)
    ensures Removable(t[..|t| - |t2|])
    ensures HasPrefix(t, "/speak") ==> |t2| <= |t| - 6
    ensures !HasPrefix(t, "/speak") && !HasPrefix(t, " ") ==> t2 == t
    ensures var k := CommandLength(t);
      && (HasPrefix(t[k..], " ") ==> t2 == t[k + 1..])
      && (!HasPrefix(t[k..], " ") ==> t2 == t[k..])
  {
    var k, command := CommandTrim(t, t0, t1);
    SpaceTrim(t, k, command, t1, t2);
    assert k == 0 ==> t1 == t;
  }

  /** The first two trims of the chain remove `command`, the first `k` bytes. */
  lemma CommandTrim(t: string, t0: string, t1: string) returns (k: nat, command: string)
    requires t0 == TrimPrefix(t, "/speak")
    requires t1 == TrimPrefix(t0, "/speak@BlackAbbot")
    ensures k <= |t| && t[..k] == command && t1 == t[k..]
    ensures command == "" || command == "/speak" || command == "/speak/speak@BlackAbbot"
    ensures HasPrefix(t, "/speak") ==> k >= 6
    ensures !HasPrefix(t, "/speak") ==> k == 0
    ensures k == CommandLength(t)
  {
    if !HasPrefix(t, "/speak") {
      assert t1 == t;
      k, command := 0, "";
    } else if !HasPrefix(t0, "/speak@BlackAbbot") {
      assert t0 == t[6..];
      k, command := 6, "/speak";
    } else {
      assert t1 == t[6..][17..] == t[23..];
      assert t[..23] == t[..6] + t[6..][..17];
      k, command := 23, "/speak/speak@BlackAbbot";
    }
  }

  /** The last trim of the chain, after `command` (the first `k` bytes) was
      removed: at most one space more goes. */
  lemma SpaceTrim(t: string, k: nat, command: string, t1: string, t2: string)
    requires k <= |t| && t[..k] == command && t1 == t[k..]
    requires command == "" || command == "/speak" || command == "/speak/speak@BlackAbbot"
    requires t2 == TrimPrefix(t1, " ")
    ensures HasSuffix(t, t2) && |t2| <= |t| - k
    ensures Removable(t[..|t| - |t2|])
    ensures !HasPrefix(t1, " ") ==> t2 == t1
    ensures HasPrefix(t1, " ") ==> t2 == t1[1..]
  {
    if HasPrefix(t1, " ") {
      assert t2 == t[k + 1..] && |t| - |t2| == k + 1;
      assert t[..k + 1] == command + " " by { assert t[..k + 1] == t[..k] + t1[..1]; }
      if command == "" {
        assert t[..k + 1] == " ";
      } else if command == "/speak" {
        assert t[..k + 1] == "/speak ";
      } else {
        assert t[..k + 1] == "/speak/speak@BlackAbbot ";
      }
    } else {
      assert t2 == t[k..] && |t| - |t2| == k;
    }
  }

  /** The three TrimPrefix calls of handleMessage, in source order: the
      result is what follows a Removable prefix, and a text that starts with
      neither "/speak" nor a space is kept whole. Exactly which prefix goes:
      CommandLength(t) bytes of command, then one space if one follows. */
  function NormalizeText(t: string): (t2: string)
    ensures HasSuffix(t, t2)
    ensures Removable(t[..|t| - |t2|])
    ensures HasPrefix(t, "/speak") ==> |t2| <= |t| - 6
    ensures !HasPrefix(t, "/speak") && !HasPrefix(t, " ") ==> t2 == t
    ensures var k := CommandLength(t);
      && (HasPrefix(t[k..], " ") ==> t2 == t[k + 1..])
      && (!HasPrefix(t[k..], " ") ==> t2 == t[k..])
  {
    var t0 := TrimPrefix(t, "/speak");
    var t1 := TrimPrefix(t0, "/speak@BlackAbbot");
    var t2 := TrimPrefix(t1, " ");
    TrimChain(t, t0, t1, t2);
    t2
  }

  /** The caption as written: the guard tests `text`, which is still the empty
      string when it is tested, so the truncating branch is never taken. */
  function CaptionText(t: string): (text: string)
    ensures text == NormalizeText(t)
  {
    var t2 := NormalizeText(t);
    var text: string := "";
    // Go's unguarded t2[0:140] would panic on a shorter t2; the branch is dead
    // either way, and Truncate stands in for it.
    if |text| > MaxTextLength then Truncate(t2, MaxTextLength) else t2
  }

  /** "/speak" is trimmed once: "/speak/speak x" keeps one command word. */
  lemma SpeakTrimmedOnce(x: string)
    ensures NormalizeText("/speak" + ("/speak " + x)) == "/speak " + x
  {
    var rest := "/speak " + x;
    TrimPrefixConcat("/speak", rest);
    TrimPrefixMismatch(rest, "/speak@BlackAbbot", 6);
    TrimPrefixMismatch(rest, " ", 0);
  }

  /** The mention form of the command, "/speak@BlackAbbot x", loses only
      "/speak": the trim of "/speak@BlackAbbot" runs on text that no longer
      starts with it. */
  lemma MentionCommandKeepsMention(x: string)
    ensures NormalizeText("/speak" + ("@BlackAbbot" + x)) == "@BlackAbbot" + x
  {
    var rest := "@BlackAbbot" + x;
    TrimPrefixConcat("/speak", rest);
    TrimPrefixMismatch(rest, "/speak@BlackAbbot", 0);
    TrimPrefixMismatch(rest, " ", 0);
  }

  /** At most one space is trimmed after the command: "/speak  x" gives " x". */
  lemma OneSpaceTrimmed(x: string)
    ensures NormalizeText("/speak" + (" " + (" " + x))) == " " + x
  {
    var rest := " " + (" " + x);
    TrimPrefixConcat("/speak", rest);
    TrimPrefixMismatch(rest, "/speak@BlackAbbot", 0);
    TrimPrefixConcat(" ", " " + x);
  }

  /** A 141-byte message yields a 141-byte caption. */
  lemma CaptionExceedsLimit()
    ensures var t := seq(MaxTextLength + 1, _ => 'a'); |CaptionText(t)| == MaxTextLength + 1
  {
    var t := seq(MaxTextLength + 1, _ => 'a');
    TrimPrefixMismatch(t, "/speak", 0);
    TrimPrefixMismatch(t, "/speak@BlackAbbot", 0);
    TrimPrefixMismatch(t, " ", 0);
  }

  /** The evidently intended normalisation: the longer command form first. */
  function NormalizeTextIntended(t: string): (r: string)
    ensures HasSuffix(t, r)
  {
    var t0 := TrimPrefix(t, "/speak@BlackAbbot");
    var t1 := TrimPrefix(t0, "/speak");
    HasSuffixTransitive(t, t0, t1);
    HasSuffixTransitive(t, t1, TrimPrefix(t1, " "));
    TrimPrefix(t1, " ")
  }

  /** The mention form and the plain form of the command give the same
      text: "/speak@BlackAbbot x" and "/speak x" both become "x". */
  lemma IntendedStripsBothForms(x: string)
    ensures NormalizeTextIntended("/speak@BlackAbbot" + (" " + x)) == x
    ensures NormalizeTextIntended("/speak" + (" " + x)) == x
  {
    TrimPrefixConcat("/speak@BlackAbbot", " " + x);
    TrimPrefixMismatch(" " + x, "/speak", 0);
    TrimPrefixConcat(" ", x);
    var y := "/speak" + (" " + x);
    TrimPrefixMismatch(y, "/speak@BlackAbbot", 6);
    TrimPrefixConcat("/speak", " " + x);
  }

  /** The evidently intended caption: normalised, then cut to 140 bytes. */
  function CaptionTextIntended(t: string): (text: string)
    ensures |text| <= MaxTextLength
    ensures HasPrefix(NormalizeTextIntended(t), text)
    ensures |NormalizeTextIntended(t)| <= MaxTextLength ==> text == NormalizeTextIntended(t)
  {
    var t2 := NormalizeTextIntended(t);
    if |t2| > MaxTextLength then t2[..MaxTextLength] else t2
  }

  function FullName(from: MessageFrom): string {
    from.firstName + " " + from.lastName
  }

  /** The sendAudio method built from the message, the caption and the URI. */
  function AudioResponse(msg: Message, text: string, uri: string): (r: SendAudioMethodResponse)
    ensures r.methodName == MethodSendAudio && r.chatId == msg.chatId && r.audio == uri && r.caption == text
    ensures r.performer == msg.from.firstName + " " + msg.from.lastName
    ensures r.title == r.performer + " said"
  {
    var fullName := FullName(msg.from);
    SendAudioMethodResponse(MethodSendAudio, msg.chatId, uri, fullName, fullName + " said", text)
  }

  /** The Polly request of textToSpeech: MP3, the neural engine, voice Kevin. */
  function SpeechInput(text: string): (input: SynthesizeSpeechInput)
    ensures input.text == text && input.outputFormat == Mp3 && input.voiceId == Kevin
    ensures input.sampleRate == None && input.engine == Neural
  {
    SynthesizeSpeechInput(Mp3, text, None, Neural, Kevin)
  }

  /** textToSpeech: Polly's error is wrapped as "decompress POLLY FAILED: ...". */
  function TextToSpeech(svc: Services, text: string): (r: Result<Stream, string>)
    ensures var polly := svc.synthesize(SpeechInput(text));
      && (r.Ok? <==> polly.Ok?)
      && (r.Ok? ==> r.value == polly.value)
      && (r.Err? ==> r.error == "decompress POLLY FAILED: " + polly.error)
  {
    match svc.synthesize(SpeechInput(text))
    case Ok(stream) => Ok(stream)
    case Err(e) => Err("decompress POLLY FAILED: " + e)
  }

  /** The upload of saveToStorage: the Polly stream as a public MP3 object. */
  function AudioObject(bucket: string, filename: string, audio: Stream): (put: PutObjectInput<Stream>)
    ensures put.bucket == bucket && put.key == filename && put.body == audio
    ensures put.contentType == "audio/mpeg" && put.acl == PublicRead
  {
    PutObjectInput(bucket, filename, audio, "audio/mpeg", PublicRead)
  }

  /** saveToStorage: S3's error is wrapped as "decompress S3 FAILED: ...". */
  function SaveToStorage(svc: Services, bucket: string, filename: string, audio: Stream): (r: Result<string, string>)
    ensures var s3 := svc.upload(AudioObject(bucket, filename, audio));
      && (r.Ok? <==> s3.Ok?)
      && (r.Ok? ==> r.value == s3.value)
      && (r.Err? ==> r.error == "decompress S3 FAILED: " + s3.error)
  {
    match svc.upload(AudioObject(bucket, filename, audio))
    case Ok(location) => Ok(location)
    case Err(e) => Err("decompress S3 FAILED: " + e)
  }

  /** handleMessage: a 500 with the error text if Polly or the upload fails,
      otherwise a 200 sendAudio to the message's chat whose caption is the
      normalised text and whose audio is the URI the upload returned. */
  function HandleMessage(svc: Services, bucket: string, msg: Message, filename: string): (r: Response)
    ensures r.statusCode == 200 || r.statusCode == 500
    ensures r.statusCode == 200 <==> r.body.Json?
    ensures r.statusCode == 500 ==> r.headers == map[]
    ensures r.statusCode == 200 ==> r.headers == JsonHeaders
    ensures r.body.Json? ==>
      && r.body.payload.methodName == MethodSendAudio
      && r.body.payload.chatId == msg.chatId
      && r.body.payload.caption == NormalizeText(msg.text)
      && r.body.payload.performer == FullName(msg.from)
      && r.body.payload.title == FullName(msg.from) + " said"
    ensures var speech := TextToSpeech(svc, CaptionText(msg.text));
      && (speech.Err? ==> r.body == Raw(speech.error))
      && (speech.Ok? ==>
            var stored := SaveToStorage(svc, bucket, filename, speech.value);
            && (stored.Err? ==> r.body == Raw(stored.error))
            && (stored.Ok? ==> r.body == Json(AudioResponse(msg, CaptionText(msg.text), stored.value))))
  {
    var text := CaptionText(msg.text);
    match TextToSpeech(svc, text)
    case Err(e) => ProxyResponse(500, map[], Raw(e))
    case Ok(audio) =>
      match SaveToStorage(svc, bucket, filename, audio)
      case Err(e) => ProxyResponse(500, map[], Raw(e))
      case Ok(uri) => ProxyResponse(200, JsonHeaders, Json(AudioResponse(msg, text, uri)))
  }

  /** handleRequest: 400 for a body that does not unmarshal, 200 with an
      empty body when there is no message, otherwise handleMessage. */
  function HandleRequest(svc: Services, bucket: string, body: Result<Update, string>, filename: string): (r: Response)
    ensures r.statusCode == 400 <==> body.Err?
    ensures body.Err? ==> r.body == Raw(body.error) && r.headers == map[]
    ensures body.Ok? && body.value.message.None? ==> r == ProxyResponse(200, map[], Raw(""))
    ensures r.body.Json? ==> body.Ok? && body.value.message.Some? && r.body.payload.chatId == body.value.message.value.chatId
    ensures body.Ok? && body.value.message.Some? ==>
      r == HandleMessage(svc, bucket, body.value.message.value, filename)
  {
    match body
    case Err(e) => ProxyResponse(400, map[], Raw(e))
    case Ok(update) =>
      if update.message.Some? then HandleMessage(svc, bucket, update.message.value, filename)
      else ProxyResponse(200, map[], Raw(""))
  }
}
