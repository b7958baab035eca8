# blackabbot speech-reply handlers in Dafny

This project models the decision logic of the three AWS Lambda handlers of the
blackabbot Telegram bot, and proves properties about it. The bot turns a chat
message into a voice reply.

- `cmd/webhook/main.go` is the webhook handler (Opus revision). It routes a
  Telegram update. It answers inline queries with an empty result list. A
  message that starts with `@BlackAbbot` becomes a voice note: trimmed text,
  Polly PCM from one of nine voices, Ogg/Opus encoding, public S3 upload, and a
  `sendVoice` method in the webhook response.
- `cmd/main.go` is the other webhook handler (MP3 revision). It strips
  command prefixes, asks Polly for MP3 with the Kevin voice, uploads the stream
  and answers with a `sendAudio` method.
- `cmd/reply/main.go` is the finisher, triggered by an S3 "object created"
  event. It reads the chat id from the first `/` segment of the object key. It
  fetches the PCM and refuses all-zero audio. It encodes Ogg/Opus, uploads the
  result under the key with its first `.pcm` replaced by `.ogg`, and posts
  exactly one Telegram method to the chat: the voice note or the error text.

Polly, S3, the Opus encoder, the AWS configuration and the Telegram HTTP API
are not modelled. Each handler receives their outcomes as function-typed fields
of a `Services` value, so the model still says what is passed to each call. The
environment variables (bucket, bot name) are parameters. So are the values of
`uuid.New()` and `rand.Intn(9)`. JSON bodies are modelled as the values they
are marshalled from. Go strings are byte sequences: a `string` here holds one
`char` per byte, so `|s|` is `len(s)` and `s[..n]` is `s[0:n]`. Audio is
`seq<bv8>`.

Files: `wrappers.dfy` (Result, Option, Outcome), `gostrings.dfy` (the `strings`
functions used), `gostrconv.dfy` (`strconv.ParseInt(s, 10, 64)` and decimal
formatting), `events.dfy` (the API Gateway response), `aws.dfy` (request
shapes), then one module per handler: `webhook.dfy`, `mp3.dfy`, `reply.dfy`.

In `cmd/webhook/main.go` the router tests the literal `@BlackAbbot`, while
`trimText` strips `TELEGRAM_BOT_NAME + " "`. The model keeps both. The mention
is removed only when the bot name is set to `@BlackAbbot`.

## Model

| member | source | states |
|---|---|---|
| GoStrings.TrimPrefix | cmd/webhook/main.go:233 | if the text starts with the prefix, the text is prefix + result; otherwise the text is returned unchanged; the result is always a suffix of the text |
| GoStrings.TrimPrefixOnce | cmd/main.go:92 | a doubled prefix loses only one copy |
| GoStrings.TrimPrefixConcat | cmd/main.go:92-94 | a prefix that is there is removed, leaving exactly the rest |
| GoStrings.TrimPrefixMismatch | cmd/main.go:92-94 | a text that differs from the prefix at some byte is returned unchanged |
| GoStrings.Truncate | cmd/webhook/main.go:235-239 | the result is a prefix of at most n bytes; a text of at most n bytes is unchanged; a longer one is cut to exactly n |
| GoStrings.IndexFrom | cmd/reply/main.go:96 | the search returns a match position at or after k with no match between k and it, or -1 when there is no match from k on |
| GoStrings.Index | cmd/reply/main.go:96 | -1 exactly when the pattern occurs nowhere; otherwise the position of an occurrence with none before it |
| GoStrings.ReplaceFirst | cmd/reply/main.go:96 | without an occurrence the text is unchanged; otherwise everything before the first occurrence is kept, the replacement stands at that position, and the rest follows unchanged |
| GoStrings.SplitFirst | cmd/reply/main.go:48 | the first segment is a prefix of the key at none of whose positions an occurrence of the separator starts, and either it is the whole key or the separator follows it |
| GoStrings.SplitFirstAgrees | cmd/reply/main.go:48 | two keys that agree up to and including the first separator have the same first segment |
| GoStrconv.ScanDigits | cmd/reply/main.go:48 | the digit loop of ParseUint never returns a value above 2^64-1 |
| GoStrconv.ParseUint | cmd/reply/main.go:48 | the unsigned parse that ParseInt delegates to never returns a value above 2^64-1 |
| GoStrconv.ParseInt | cmd/reply/main.go:48 | a parsed value lies in the int64 range; an error carries the function name "ParseInt" and the whole input |
| GoStrconv.ScanDigitsSound | cmd/reply/main.go:48 | a successful scan read only digits and returns their decimal value |
| GoStrconv.ScanDigitsComplete | cmd/reply/main.go:48 | digits whose value fits in 64 bits scan to that value |
| GoStrconv.ScanDigitsOverflow | cmd/reply/main.go:48 | digits whose value exceeds 2^64-1 give a range error |
| GoStrconv.DigitsValueMonotone | cmd/reply/main.go:48 | appending digits never lowers the value, which makes an early overflow final |
| GoStrconv.ParseUintCorrect | cmd/reply/main.go:48 | ParseUint succeeds exactly on non-empty digit strings up to 2^64-1, with their value; a syntax error means a non-digit or an empty string |
| GoStrconv.ParseIntCorrect | cmd/reply/main.go:48 | ParseInt succeeds exactly on an optionally signed non-empty digit string whose value is in the int64 range, and returns that value; a well-formed out-of-range input is a range error |
| GoStrconv.FormatInt | cmd/reply/main.go:48 | how a "<chatId>/..." key is written (the writer of such keys is outside the modelled handlers): a non-empty decimal text that starts with '-' exactly for a negative number |
| GoStrconv.NatDigitsValue | cmd/reply/main.go:48 | the decimal digits of n have value n |
| GoStrconv.FormatIntIsDecimal | cmd/reply/main.go:48 | the decimal form of an integer is a valid signed digit string |
| GoStrconv.ParseFormatRoundTrip | cmd/reply/main.go:48 | parsing the decimal form of any int64 gives it back |
| GoStrconv.DecimalHasNoDot | cmd/reply/main.go:48 | a parsable chat segment contains no '.' and no '/' |
| Webhook.ErrorResponse | cmd/webhook/main.go:255-257 | the status is the given code, the body is the error text, no headers |
| Webhook.NopResponse | cmd/webhook/main.go:259-261 | status 200 with an empty body and no headers |
| Webhook.JsonResponse | cmd/webhook/main.go:242-253 | status 200, the JSON content-type header, and the payload as body |
| Webhook.TrimText | cmd/webhook/main.go:232-240 | the result is at most 140 bytes and a prefix of the text after one leading `botName + " "` is removed; that text is returned whole when it is at most 140 bytes, else cut to exactly 140 |
| Webhook.TrimTextRemovesOnce | cmd/webhook/main.go:233 | a text starting with the bot-name prefix twice keeps one copy, when the result is at most 140 bytes |
| Webhook.TrimTextWithoutPrefix | cmd/webhook/main.go:233-239 | a text without the prefix is only truncated; a short one is unchanged |
| Webhook.SpeechInput | cmd/webhook/main.go:158-177 | the Polly request carries the trimmed text, the requested format, sample rate "8000", the neural engine and the voice at the drawn index |
| Webhook.VoicePoolIsIndexedOnce | cmd/webhook/main.go:158-169 | the pool has 9 entries, every pool voice is at some index in [0, 9), and no voice appears at two indices |
| Webhook.TextToSpeech | cmd/webhook/main.go:155-186 | succeeds exactly when Polly does, with Polly's stream; a failure is reported as "decompress POLLY FAILED: " followed by Polly's error |
| Webhook.ConvertToOpus | cmd/webhook/main.go:208-230 | a failed read of the stream is passed on unchanged; otherwise the outcome is the encoder's on the bytes read, at 8 kHz mono, 40 kbit/s, 20 ms frames |
| Webhook.VoiceObject | cmd/webhook/main.go:192-200 | the upload goes to the configured bucket under the fresh file name, as public-read `audio/ogg` with the encoded audio as body |
| Webhook.SaveToStorage | cmd/webhook/main.go:188-206 | succeeds exactly when the upload does, with its location; a failure is reported as "decompress S3 FAILED: " followed by the upload error |
| Webhook.HandleMessage | cmd/webhook/main.go:128-153 | status is 200 or 500; 200 exactly when the body is a payload, which is then a `sendVoice` to the message's chat with the JSON content-type header; a 500 has no headers and the first failing step's error text as body; after all steps succeed the voice is the URI the upload of the encoded speech returned |
| Webhook.HandleInlineQuery | cmd/webhook/main.go:118-126 | status 200 with the JSON content-type header and `answerInlineQuery` echoing the query id and an empty result list |
| Webhook.HandleRequest | cmd/webhook/main.go:90-116 | status 400 exactly for an unparsable body, which gets exactly `errorResponse(err, 400)`: the error text and no headers; a config failure gives 500; an inline query is answered even when a message is present; otherwise the reply is the bare 200 exactly when the update holds no message starting with `@BlackAbbot`, and such a message gets exactly handleMessage's response; any `sendVoice` reply is addressed to the chat of such a message |
| Mp3Webhook.NormalizeText | cmd/main.go:92-94 | exactly `CommandLength(t)` bytes of command are removed, then one space if one follows; hence the result is a suffix of the text, what is cut off is one of "", " ", "/speak", "/speak ", "/speak/speak@BlackAbbot", "/speak/speak@BlackAbbot ", a leading "/speak" always goes, and a text starting with neither "/speak" nor a space is kept whole |
| Mp3Webhook.TrimChain | cmd/main.go:92-94 | the same facts, for every text, about the three trims in source order |
| Mp3Webhook.CommandTrim | cmd/main.go:92-93 | the first two trims remove exactly `CommandLength(t)` bytes: "/speak/speak@BlackAbbot" when "/speak@BlackAbbot" follows a first "/speak", "/speak" when the text starts with "/speak" otherwise, nothing else |
| Mp3Webhook.SpaceTrim | cmd/main.go:94 | after the command is gone, a leading space is removed and otherwise nothing is; the cut stays Removable |
| Mp3Webhook.CaptionText | cmd/main.go:96-101 | the caption is the normalised text itself: the guard tests the still-empty `text` |
| Mp3Webhook.SpeakTrimmedOnce | cmd/main.go:92 | "/speak/speak x" keeps one "/speak" |
| Mp3Webhook.MentionCommandKeepsMention | cmd/main.go:92-94 | "/speak@BlackAbbot" + x normalises to "@BlackAbbot" + x |
| Mp3Webhook.OneSpaceTrimmed | cmd/main.go:94 | only one of two spaces after the command is removed |
| Mp3Webhook.CaptionExceedsLimit | cmd/main.go:96-101 | a 141-byte message yields a 141-byte caption |
| Mp3Webhook.NormalizeTextIntended | cmd/main.go:92-94 | the reordered trims return a suffix of the text |
| Mp3Webhook.IntendedStripsBothForms | cmd/main.go:92-94 | with the reordered trims, "/speak@BlackAbbot x" and "/speak x" both give "x" |
| Mp3Webhook.CaptionTextIntended | cmd/main.go:96-101 | the corrected caption is at most 140 bytes and a prefix of the normalised text, equal to it when that is short enough |
| Mp3Webhook.AudioResponse | cmd/main.go:113-121 | method `sendAudio`, the message's chat id, the uploaded URI, the caption text; performer is first name, space, last name; title is the performer followed by " said" |
| Mp3Webhook.SpeechInput | cmd/main.go:138-143 | the Polly request asks for MP3 from the neural engine with voice Kevin and no sample rate |
| Mp3Webhook.TextToSpeech | cmd/main.go:135-152 | succeeds exactly when Polly does, with its stream; a failure is reported as "decompress POLLY FAILED: " followed by Polly's error |
| Mp3Webhook.AudioObject | cmd/main.go:158-166 | the Polly stream is uploaded to the bucket under the fresh file name as public-read `audio/mpeg` |
| Mp3Webhook.SaveToStorage | cmd/main.go:154-172 | succeeds exactly when the upload does, with its location; a failure is reported as "decompress S3 FAILED: " followed by the upload error |
| Mp3Webhook.HandleMessage | cmd/main.go:91-133 | status 200 or 500; 200 exactly when the body is a `sendAudio` payload to the message's chat, captioned with the normalised text, with the sender's full name as performer and that name plus " said" as title; after Polly and the upload succeed the payload is the `sendAudio` for the caption and the URI the upload returned; otherwise the 500 body is the first failing step's error text |
| Mp3Webhook.HandleRequest | cmd/main.go:67-89 | status 400 exactly for an unparsable body, with the error text; no message gives 200 with an empty body; a message gets exactly handleMessage's response; any payload is addressed to the message's chat |
| Reply.IsSilence | cmd/reply/main.go:129-137 | true exactly when every byte is zero: true on empty input, false as soon as one byte is non-zero |
| Reply.ConvertToOpus | cmd/reply/main.go:108-127 | silent PCM gives the silence error without reaching the encoder; otherwise the encoder's outcome at 16 kHz mono, 192 kbit/s, 2.5 ms frames |
| Reply.ChatSegment | cmd/reply/main.go:48 | the chat segment is a prefix of the key without '/', either the whole key or followed by '/' |
| Reply.ParseChatId | cmd/reply/main.go:48 | succeeds exactly when the chat segment is an optionally signed digit string in the int64 range, and returns its value |
| Reply.ParseChatIdNumeric | cmd/reply/main.go:48 | "4821/abc123.pcm" gives chat 4821 |
| Reply.ParseChatIdNotNumeric | cmd/reply/main.go:48-51 | "notanumber/abc.pcm" is a key error |
| Reply.KeyCorrelation | cmd/reply/main.go:48 | a key "<chatId>/<suffix>" for any int64 chat id gives that chat id back |
| Reply.OutputKey | cmd/reply/main.go:96 | the rewritten key has the same length; a key without ".pcm" is unchanged; otherwise only the first ".pcm" becomes ".ogg" |
| Reply.OutputKeyKeepsChat | cmd/reply/main.go:96 | for a key with a parsable chat segment, the rewritten key has the same chat segment and the same chat id |
| Reply.OggObject | cmd/reply/main.go:94-100 | the upload goes to the event's bucket under the rewritten key, as public-read `audio/ogg` |
| Reply.Send | cmd/reply/main.go:139-185 | a send appends exactly one post of the method and returns an error exactly when the post fails |
| Reply.Deliver | cmd/reply/main.go:53-73 | each outcome fixes the whole run: a config failure posts only its error text; a failed fetch posts the fetch error after the fetch; silent PCM posts the silence error after the fetch; an encoder failure posts the encoder's error after the fetch; a failed upload posts the upload error after the fetch and the upload; full success posts `sendVoice` with the uploaded URI after the fetch and the upload; the run returns nil exactly when its post succeeds, and otherwise returns that post's error |
| Reply.DeliverShape | cmd/reply/main.go:53-73 | every run ends in exactly one post, to the chat; any fetch is of the event's object; any upload is of the encoding of fetched, non-silent PCM under the ".ogg" key; a `sendVoice` carries the URI its upload returned |
| Reply.HandleRequest | cmd/reply/main.go:43-74 | no record: a panic with no effects; a key error: returned with no effects and nothing sent; otherwise the run of `Reply.Deliver` for the event's bucket and key and the parsed chat |

## Findings

| source | as written | input that shows it | evidently intended | confidence | as-written member | corrected member |
|---|---|---|---|---|---|---|
| cmd/main.go:96-101 | the length guard tests `text`, which is still empty, so `t2` is never cut | a message of 141 bytes of 'a' gives a 141-byte caption | a caption cut to 140 bytes | high; not executed | Mp3Webhook.CaptionExceedsLimit | Mp3Webhook.CaptionTextIntended |
| cmd/main.go:92-93 | "/speak" is trimmed before "/speak@BlackAbbot", so the second trim never applies to the mention form of the command | "/speak@BlackAbbot hello" normalises to "@BlackAbbot hello" | "hello", the same as "/speak hello" | medium; not executed | Mp3Webhook.MentionCommandKeepsMention | Mp3Webhook.NormalizeTextIntended |

`Mp3Webhook.HandleMessage` keeps the as-written normalisation and caption.
That is the behaviour of the handler as written, and the properties above are
stated against it. The corrected definitions stand beside it with their
properties proved (`Mp3Webhook.IntendedStripsBothForms`,
`Mp3Webhook.CaptionTextIntended`).

## Left out

- Polly, S3 (upload and `GetObject`), the Telegram HTTP posts and `config.LoadDefaultConfig` are network I/O. Each is a function-typed input of `Services`, and its outcome is taken as given.
- The Ogg/Opus encoder (`opus.OggStream.EncodeBytes`, and `Flush` before it) is a foreign library. Its configuration is recorded in `OpusConfig`, and its outcome is an input.
- JSON unmarshalling of the request body is an input (`Result<Update, string>`). Responses and posted methods are payload values, not serialized bytes.
- The `json.Marshal` error branches (cmd/webhook/main.go:243-246, cmd/main.go:123-126, cmd/reply/main.go:145-148 and 169-172) are not modelled. These structs of strings and integers always marshal.
- `uuid.New()` and `rand.Intn(9)` are parameters: a file name, and a voice index with `0 <= i < 9` required.
- `log.Fatalf` at cmd/main.go:77 ends the process and is not modelled. The MP3 handler takes no configuration outcome, and the unreachable second `err` checks (cmd/main.go:80-82, cmd/webhook/main.go:102-104) are left out with it.
- The bot token in the Telegram URL, and the HTTP status of a post, are not modelled. The source ignores the status; only a transport error counts as a failed post.
- Records after `Records[0]` are ignored, as in the source. An event with no records is the Go index panic, modelled as `Failure.Panic`.
- The text of a `*strconv.NumError` (`strconv.ParseInt: parsing "…": invalid syntax`) is not built. The key error keeps the structured error: function, input and kind.
- GoStrconv.ParseIntCorrect: says that a syntax error implies a malformed input, but not the converse. Go reports overflow of a long digit run before a later non-digit, so `99999999999999999999x` is a range error.
- `strings.Split` is modelled only for its first element, which is all the finisher reads.
- The functional model uses the predicate `Reply.Silent`. `Reply.IsSilence` is the source's loop, proved equal to it.
- Text is one `char` per byte. UTF-8 decoding is not modelled; byte slicing can split a character in Go as well.
