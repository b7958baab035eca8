/** The S3-triggered finisher of cmd/reply/main.go: recovers the chat id from
    the first segment of the new object's key, fetches the raw PCM, refuses
    all-zero audio, encodes Ogg/Opus, uploads it next to the source under the
    ".ogg" key, and posts exactly one reply to that chat: the voice note, or a
    text carrying the first error. */
module Reply {
  import opened Wrappers
  import opened GoStrings
  import opened Aws
  import GoStrconv

  /** errSilence. */
  const ErrSilence: string := "exclusively empty bytes in pcm"

  /** The encoder configuration of convertToOpus. */
  const OpusConfig: OggStream := OggStream(16000, 1, 192000, 2.5, 10)

  /** The bucket and key of one S3 event record. */
  datatype S3Record = S3Record(bucket: string, key: string)

  /** A Telegram method posted by sendVoiceResponse or sendErrorResponse. */
  datatype Outbound = SendVoice(chatId: int, voice: string) | SendMessage(chatId: int, text: string)

  /** The visible side effects of an invocation, in order. */
  datatype Effect = GetObject(bucket: string, key: string) | Upload(put: PutObjectInput<Bytes>) | Post(message: Outbound)

  /** Why an invocation ends with an error: an event without records (the
      index expression panics), an unparsable key, or a failed HTTP post. */
  datatype Failure = Panic | KeyError(err: GoStrconv.NumError) | PostError(text: string)

  /** What one invocation did and the error it returned (None for nil). */
  datatype Invocation = Invocation(effects: seq<Effect>, returned: Option<Failure>)

  /** The outcomes of the external calls, as functions of what is passed to them. */
  datatype Services = Services(
    loadConfig: Outcome<string>,
    getObject: (string, string) -> Result<Bytes, string>,
    encode: (OggStream, Bytes) -> Result<Bytes, string>,
    upload: PutObjectInput<Bytes> -> Result<string, string>,
    post: Outbound -> Outcome<string>)

  /** The specification of isSilence: every byte is zero. */
  predicate Silent(audio: Bytes) {
    forall i :: 0 <= i < |audio| ==> audio[i] == 0
  }

  /** isSilence: scans the bytes and stops at the first non-zero one. */
  method IsSilence(audio: Bytes) returns (silent: bool)
    ensures silent <==> Silent(audio)
    ensures |audio| == 0 ==> silent
    ensures forall i :: 0 <= i < |audio| && audio[i] != 0 ==> !silent
  {
    for i := 0 to |audio|
      invariant forall j :: 0 <= j < i ==> audio[j] == 0
    {
      if audio[i] != 0 {
        return false;
      }
    }
    return true;
  }

  /** convertToOpus: silent audio is refused before the encoder sees it. */
  function ConvertToOpus(svc: Services, pcm: Bytes): (r: Result<Bytes, string>)
    ensures Silent(pcm) ==> r == Err(ErrSilence)
    ensures !Silent(pcm) ==> r == svc.encode(OpusConfig, pcm)
  {
    if Silent(pcm) then Err(ErrSilence) else svc.encode(OpusConfig, pcm)
  }

  /** The key segment that names the chat: the text before the first '/'. */
  function ChatSegment(key: string): (seg: string)
    ensures HasPrefix(key, seg) && '/' !in seg
    ensures seg == key || key[|seg|] == '/'
  {
    var seg := SplitFirst(key, "/");
    assert forall i :: 0 <= i < |seg| ==> seg[i] == key[i] && !OccursAt(key, "/", i);
    assert seg != key ==> OccursAt(key, "/", |seg|);
    seg
  }

  /** strconv.ParseInt(strings.Split(key, "/")[0], 10, 64). */
  function ParseChatId(key: string): (r: Result<int, GoStrconv.NumError>)
    ensures r.Ok? ==> GoStrconv.MinInt64 <= r.value <= GoStrconv.MaxInt64
    ensures r.Ok? <==> GoStrconv.IsDecimal(ChatSegment(key))
                       && GoStrconv.MinInt64 <= GoStrconv.DecimalValue(ChatSegment(key)) <= GoStrconv.MaxInt64
    ensures r.Ok? ==> r.value == GoStrconv.DecimalValue(ChatSegment(key))
  {
    GoStrconv.ParseIntCorrect(ChatSegment(key));
    GoStrconv.ParseInt(ChatSegment(key))
  }

  /** A numeric first segment names the chat. */
  lemma ParseChatIdNumeric()
    ensures ParseChatId("4821/abc123.pcm") == Ok(4821)
  {
    KeyCorrelation(4821, "abc123.pcm");
    assert GoStrconv.NatDigits(4821) == "4821" by {
      assert GoStrconv.NatDigits(4) == "4";
      assert GoStrconv.NatDigits(48) == "48";
      assert GoStrconv.NatDigits(482) == "482";
    }
    assert GoStrconv.FormatInt(4821) + "/" + "abc123.pcm" == "4821/abc123.pcm";
  }

  /** A non-numeric first segment is a key error. */
  lemma ParseChatIdNotNumeric()
    ensures ParseChatId("notanumber/abc.pcm").Err?
  {
  }

  /** A key written as "<chatId>/<suffix>" for an int64 chat id gives that
      chat id back: the only link between a synthesis job and its chat. */
  lemma KeyCorrelation(chatId: int, suffix: string)
    requires GoStrconv.MinInt64 <= chatId <= GoStrconv.MaxInt64
    ensures ParseChatId(GoStrconv.FormatInt(chatId) + "/" + suffix) == Ok(chatId)
  {
    var f := GoStrconv.FormatInt(chatId);
    var key := f + "/" + suffix;
    GoStrconv.FormatIntIsDecimal(chatId);
    GoStrconv.DecimalHasNoDot(f);
    assert OccursAt(key, "/", |f|);
    forall i | 0 <= i < |f| ensures !OccursAt(key, "/", i) {
      assert key[i] == f[i];
    }
    assert key[..|f|] == f;
    assert ChatSegment(key) == f;
    GoStrconv.ParseFormatRoundTrip(chatId);
  }

  /** The key of the encoded object: the first ".pcm" becomes ".ogg". */
  function OutputKey(key: string): (r: string)
    ensures |r| == |key|
    ensures Index(key, ".pcm") == -1 ==> r == key
    ensures Index(key, ".pcm") != -1 ==>
      var i := Index(key, ".pcm");
      r[..i] == key[..i] && r[i..i + 4] == ".ogg" && r[i + 4..] == key[i + 4..]
  {
    ReplaceFirst(key, ".pcm", ".ogg")
  }

  /** The rewrite never touches a parsable chat segment, so the encoded object
      is addressed to the same chat as its source. */
  lemma OutputKeyKeepsChat(key: string)
    requires ParseChatId(key).Ok?
    ensures ChatSegment(OutputKey(key)) == ChatSegment(key)
    ensures ParseChatId(OutputKey(key)) == ParseChatId(key)
  {
    var seg := ChatSegment(key);
    var i := Index(key, ".pcm");
    GoStrconv.DecimalHasNoDot(seg);
    if i != -1 {
      assert key[i] == '.' by { assert OccursAt(key, ".pcm", i); assert key[i..i + 4][0] == key[i]; }
      assert i != |seg| || seg == key;
      assert seg != key;
      var r := OutputKey(key);
      var k := |seg| + 1;
      assert r[..k] == key[..k] by {
        assert r[..k] == r[..i][..k];
        assert key[..k] == key[..i][..k];
      }
      SplitFirstAgrees(key, r, "/");
    }
  }

  /** The upload of saveToStorage: a public Ogg object under the rewritten key. */
  function OggObject(bucket: string, key: string, audio: Bytes): (put: PutObjectInput<Bytes>)
    ensures put.bucket == bucket && put.key == OutputKey(key) && put.body == audio
    ensures put.contentType == "audio/ogg" && put.acl == PublicRead
  {
    PutObjectInput(bucket, OutputKey(key), audio, "audio/ogg", PublicRead)
  }

  /** Posts one method and returns the post's error, if any. */
  function Send(svc: Services, done: seq<Effect>, message: Outbound): (r: Invocation)
    ensures r.effects == done + [Post(message)]
    ensures r.returned.None? <==> svc.post(message).Pass?
    ensures r.returned.Some? ==> r.returned.value == PostError(svc.post(message).error)
  {
    match svc.post(message)
    case Pass => Invocation(done + [Post(message)], None)
    case Fail(e) => Invocation(done + [Post(message)], Some(PostError(e)))
  }

  /** The effects end in exactly one post, addressed to `chatId`. */
  predicate OneReplyTo(effects: seq<Effect>, chatId: int) {
    && |effects| > 0
    && effects[|effects| - 1].Post?
    && effects[|effects| - 1].message.chatId == chatId
    && forall i :: 0 <= i < |effects| - 1 ==> !effects[i].Post?
  }

  /** The steps of handleRequest once the chat id is known: each outcome of
      each step fixes the whole run. A failure posts that step's own error
      text to the chat; full success posts the voice note. */
  function Deliver(svc: Services, bucket: string, key: string, chatId: int): (r: Invocation)
    ensures var pcm := svc.getObject(bucket, key);
      && (svc.loadConfig.Fail? ==> r.effects == [Post(SendMessage(chatId, svc.loadConfig.error))])
      && (svc.loadConfig.Pass? && pcm.Err? ==>
            r.effects == [GetObject(bucket, key), Post(SendMessage(chatId, pcm.error))])
      && (svc.loadConfig.Pass? && pcm.Ok? && Silent(pcm.value) ==>
            r.effects == [GetObject(bucket, key), Post(SendMessage(chatId, ErrSilence))])
      && (svc.loadConfig.Pass? && pcm.Ok? && !Silent(pcm.value) && svc.encode(OpusConfig, pcm.value).Err? ==>
            r.effects == [GetObject(bucket, key), Post(SendMessage(chatId, svc.encode(OpusConfig, pcm.value).error))])
      && (svc.loadConfig.Pass? && pcm.Ok? && !Silent(pcm.value) && svc.encode(OpusConfig, pcm.value).Ok? ==>
            var put := OggObject(bucket, key, svc.encode(OpusConfig, pcm.value).value);
            && (svc.upload(put).Err? ==>
                  r.effects == [GetObject(bucket, key), Upload(put), Post(SendMessage(chatId, svc.upload(put).error))])
            && (svc.upload(put).Ok? ==>
                  r.effects == [GetObject(bucket, key), Upload(put), Post(SendVoice(chatId, svc.upload(put).value))]))
    ensures r.returned.None? <==> svc.post(r.effects[|r.effects| - 1].message).Pass?
    ensures r.returned.Some? ==> r.returned == Some(PostError(svc.post(r.effects[|r.effects| - 1].message).error))
  {
    match svc.loadConfig
    case Fail(e) => Send(svc, [], SendMessage(chatId, e))
    case Pass =>
      var fetched := [GetObject(bucket, key)];
      match svc.getObject(bucket, key)
      case Err(e) => Send(svc, fetched, SendMessage(chatId, e))
      case Ok(pcm) =>
        match ConvertToOpus(svc, pcm)
        case Err(e) => Send(svc, fetched, SendMessage(chatId, e))
        case Ok(audio) =>
          var put := OggObject(bucket, key, audio);
          var stored := fetched + [Upload(put)];
          match svc.upload(put)
          case Err(e) => Send(svc, stored, SendMessage(chatId, e))
          case Ok(uri) => Send(svc, stored, SendVoice(chatId, uri))
  }

  /** What every run after the parse has in common: one reply, last, to the
      chat; a fetch only of the event's object; an upload only of the
      encoding of fetched non-silent PCM, under the ".ogg" key; and a voice
      note only with the URI its upload returned. */
  lemma DeliverShape(svc: Services, bucket: string, key: string, chatId: int)
    ensures var r := Deliver(svc, bucket, key, chatId);
      var pcm := svc.getObject(bucket, key);
      && OneReplyTo(r.effects, chatId)
      && (forall e :: e in r.effects && e.GetObject? ==> e == GetObject(bucket, key))
      && (forall e :: e in r.effects && e.Upload? ==>
            && pcm.Ok? && !Silent(pcm.value)
            && e.put == OggObject(bucket, key, e.put.body)
            && svc.encode(OpusConfig, pcm.value) == Ok(e.put.body))
      && (r.effects[|r.effects| - 1].message.SendVoice? ==>
            && |r.effects| == 3
            && r.effects[1].Upload?
            && svc.upload(r.effects[1].put) == Ok(r.effects[2].message.voice))
  {
    var pcm := svc.getObject(bucket, key);
    if svc.loadConfig.Pass? && pcm.Ok? && !Silent(pcm.value) && svc.encode(OpusConfig, pcm.value).Ok? {
      var put := OggObject(bucket, key, svc.encode(OpusConfig, pcm.value).value);
      assert put.body == svc.encode(OpusConfig, pcm.value).value;
    }
  }

  /** handleRequest: the first record's key names the chat; a key that does
      not parse is returned as the error, before anything is fetched or sent. */
  function HandleRequest(svc: Services, records: seq<S3Record>): (r: Invocation)
    ensures |records| == 0 ==> r == Invocation([], Some(Panic))
    ensures |records| > 0 && ParseChatId(records[0].key).Err? ==>
      r == Invocation([], Some(KeyError(ParseChatId(records[0].key).error)))
    ensures |records| > 0 && ParseChatId(records[0].key).Ok? ==>
      r == Deliver(svc, records[0].bucket, records[0].key, ParseChatId(records[0].key).value)
  {
    if |records| == 0 then Invocation([], Some(Panic))
    else
      var bucket, key := records[0].bucket, records[0].key;
      match ParseChatId(key)
      case Err(e) => Invocation([], Some(KeyError(e)))
      case Ok(chatId) =>
        Deliver(svc, bucket, key, chatId)
  }
}
