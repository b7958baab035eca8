/** The shapes of the requests the handlers hand to Polly, S3 and the Ogg/Opus
    encoder. The services themselves are not modelled: each handler receives
    their outcomes as functions. */
module Aws {
  import opened Wrappers

  type Bytes = seq<bv8>

  /** An io.ReadCloser, given by what ioutil.ReadAll on it returns. */
  datatype Stream = Stream(readAll: Result<Bytes, string>)

  /** The Polly voices the handlers name. */
  datatype VoiceId = Salli | Joanna | Ivy | Kendra | Kimberly | Kevin | Matthew | Justin | Joey

  datatype OutputFormat = Pcm | Mp3

  datatype Engine = Neural

  /** polly.SynthesizeSpeechInput; `sampleRate` is nil when not set. */
  datatype SynthesizeSpeechInput = SynthesizeSpeechInput(
    outputFormat: OutputFormat,
    text: string,
    sampleRate: Option<string>,
    engine: Engine,
    voiceId: VoiceId)

  datatype ObjectCannedAcl = PublicRead

  /** s3.PutObjectInput with the body the uploader reads. */
  datatype PutObjectInput<+B> = PutObjectInput(
    bucket: string,
    key: string,
    body: B,
    contentType: string,
    acl: ObjectCannedAcl)

  /** The configuration of an opus.OggStream. */
  datatype OggStream = OggStream(sampleRate: int, channels: int, bitrate: int, frameSize: real, complexity: int)
}
