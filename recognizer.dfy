/**
  stt/recognizer.py and the entry of `YandexRecognizer` (stt/yandex/model.py): a recognition
  model holds a configuration object, reads and writes its attributes by name, and
  transcribes decoded audio into one `Transcription` per channel.

  The model does not copy the configuration it is given; it keeps the object, so a setter
  changes what the caller handed in. The gRPC exchange is replaced by its inputs: the
  response stream the service sends back, or the failure it reports.
*/
module SttRecognizer {
  import opened Wrappers
  import opened Values
  import opened Seqs
  import opened Creds
  import opened Environment
  import opened YandexCall
  import opened SttTranscription
  import opened SttStream
  import opened SttConfig
  import opened SttRequests
  import opened SttAggregator

  /** The decoded audio after `set_sample_width(2)`: channel count, frame rate and 16-bit PCM bytes. */
  datatype Audio = Audio(channels: nat, frameRate: int, pcm: seq<byte>)

  /** The ways `_transcribe_impl` raises instead of returning. */
  datatype TranscribeError =
    | TooManyChannels          // the `audio.channels <= 2` assertion
    | NoCredentials            // `get_yandex_credentials()` is None, so `.api_key` raises
    | ZeroChunkSize            // `range(0, len(pcm), 0)` raises inside the request generator
    | RecognitionFailed(message: string)  // the RPC reported an error; it is re-raised

  /** The streaming call as it leaves the client: metadata and the request stream. */
  datatype Call = Call(metadata: seq<Header>, requests: seq<StreamingRequest>)

  /** The four attribute names the model's properties get and set. */
  const PropertyNames: set<string> := {"model", "language", "audio_processing_type", "data_logging"}

  /** `RecognitionModel`, with the fields `YandexRecognizer` adds through `YandexModel`. */
  class RecognitionModel {
    var config: RecognitionConfig
    const customHeaders: seq<Header>

    predicate Valid()
      reads this, config
    {
      config.Valid()
    }

    /** `RecognitionModel(config)`: a missing configuration becomes a fresh field-less one. */
    constructor (config: RecognitionConfig?)
      requires config != null ==> config.Valid()
      ensures Valid() && customHeaders == []
      ensures config != null ==> this.config == config
      ensures config == null ==> fresh(this.config) && !this.config.isYandex && this.config.attrs == map[]
    {
      if config == null {
        this.config := new RecognitionConfig.Base();
      } else {
        this.config := config;
      }
      customHeaders := [];
    }

    /** `YandexRecognizer(custom_headers=...)`: a default Yandex configuration; `custom_headers or []`. */
    constructor Yandex(customHeaders: Option<seq<Header>>)
      ensures Valid() && fresh(config)
      ensures config.isYandex && config.attrs == YandexRecognitionDefaults()
      ensures this.customHeaders == if customHeaders.Some? then customHeaders.value else []
    {
      config := new RecognitionConfig.Yandex();
      this.customHeaders := if customHeaders.Some? then customHeaders.value else [];
    }

    /** `_get_config_parameter(name)`: the attribute when the configuration has it, else `None`. */
    function GetConfigParameter(name: string): (v: Value)
      reads this, config
      ensures name in config.attrs ==> v == config.attrs[name]
      ensures name !in config.attrs ==> v == NoneValue
    {
      if name in config.attrs then config.attrs[name] else NoneValue
    }

    /**
      `_set_config_parameter(name, value)`: replaces an attribute the configuration has;
      an unknown name is reported and ignored. Nothing but that one attribute changes.
    */
    method SetConfigParameter(name: string, value: Value)
      requires Valid()
      modifies config
      ensures Valid() && config.isYandex == old(config.isYandex)
      ensures name in old(config.attrs) ==> config.attrs == old(config.attrs)[name := value]
      ensures name !in old(config.attrs) ==> config.attrs == old(config.attrs)
      ensures name in old(config.attrs) ==> GetConfigParameter(name) == value
      ensures forall other :: other != name ==> GetConfigParameter(other) == old(GetConfigParameter(other))
    {
      if name in config.attrs {
        config.attrs := config.attrs[name := value];
      }
    }

    /**
      `transcribe(audio, recognition_config)`: the model's own configuration object is used
      when none is passed. The response stream, the failure the service may report, the
      request id and the chunk size are inputs (see `TranscribeImpl`).
    */
    method Transcribe(audio: Audio, recognitionConfig: RecognitionConfig?, globals: Globals,
                      requestId: string, chunkSize: nat, responses: seq<Response>, failure: Option<string>)
      returns (result: Result<seq<Transcription>, TranscribeError>, call: Option<Call>, ghost lists: map<string, WordList>)
      requires Valid() && (recognitionConfig != null ==> recognitionConfig.Valid())
      modifies globals
      ensures var used := if recognitionConfig == null then config else recognitionConfig;
        Outcome(audio, used.EffectiveAttrs(), customHeaders, old(globals.Configured()), requestId,
                chunkSize, responses, failure, result, call, lists)
      ensures forall t :: t in lists ==> lists[t].items == Lookup(Run(responses), t).pending.words
      ensures globals.Configured() == old(globals.Configured())
    {
      var used := if recognitionConfig == null then config else recognitionConfig;
      result, call, lists := TranscribeImpl(audio, used, globals, requestId, chunkSize, responses, failure);
    }

    /**
      `_transcribe_impl`. The configuration is read, never changed; the credentials are read
      from the environment singleton, which this may create.
    */
    method TranscribeImpl(audio: Audio, recognitionConfig: RecognitionConfig, globals: Globals,
                          requestId: string, chunkSize: nat, responses: seq<Response>, failure: Option<string>)
      returns (result: Result<seq<Transcription>, TranscribeError>, call: Option<Call>, ghost lists: map<string, WordList>)
      requires recognitionConfig.Valid()
      modifies globals
      ensures Outcome(audio, recognitionConfig.EffectiveAttrs(), customHeaders, old(globals.Configured()),
                      requestId, chunkSize, responses, failure, result, call, lists)
      ensures forall t :: t in lists ==> lists[t].items == Lookup(Run(responses), t).pending.words
      ensures globals.Configured() == old(globals.Configured())
    {
      lists := map[];
      var attrs := recognitionConfig.EffectiveAttrs();
      if audio.channels > 2 {
        return Err(TooManyChannels), None, lists;
      }
      var creds := globals.GetYandexCredentials();
      if creds.None? {
        return Err(NoCredentials), None, lists;
      }
      var metadata := RequestMetadata(creds.value, requestId, customHeaders, attrs["data_logging"]);
      if chunkSize == 0 {
        var session := SessionRequest(SessionOptionsFor(attrs, audio.frameRate, audio.channels));
        return Err(ZeroChunkSize), Some(Call(metadata, [session])), lists;
      }
      call := Some(Call(metadata, GenRequests(attrs, audio.pcm, audio.channels, audio.frameRate, chunkSize)));
      if failure.Some? {
        return Err(RecognitionFailed(failure.value)), call, lists;
      }
      var ts, ls := TranscribeStream(audio.channels, responses);
      result, lists := Ok(ts), ls;
    }
  }

  /**
    What a transcription call does, in order of the checks: more than two channels is
    refused before anything is sent; missing credentials fail before the call; a zero chunk
    size fails after the session options went out; a reported failure is raised after the
    whole request stream; otherwise each of the audio's channels gets its transcription,
    tagged "0", "1", ..., as `Reports` states against the response stream.
  */
  ghost predicate Outcome(audio: Audio, attrs: map<string, Value>, customHeaders: seq<Header>,
                          creds: Option<Credentials>, requestId: string, chunkSize: nat,
                          responses: seq<Response>, failure: Option<string>,
                          result: Result<seq<Transcription>, TranscribeError>, call: Option<Call>,
                          lists: map<string, WordList>)
    requires attrs.Keys == YandexRecognitionFields
  {
    if audio.channels > 2 then result == Err(TooManyChannels) && call == None
    else if creds.None? then result == Err(NoCredentials) && call == None
    else
      var metadata := RequestMetadata(creds.value, requestId, customHeaders, attrs["data_logging"]);
      if chunkSize == 0 then
        && result == Err(ZeroChunkSize)
        && call == Some(Call(metadata, [SessionRequest(SessionOptionsFor(attrs, audio.frameRate, audio.channels))]))
      else
        && call == Some(Call(metadata, GenRequests(attrs, audio.pcm, audio.channels, audio.frameRate, chunkSize)))
        && (failure.Some? ==> result == Err(RecognitionFailed(failure.value)))
        && (failure.None? ==>
              && result.Ok?
              && |result.value| == audio.channels
              && forall c :: 0 <= c < audio.channels ==>
                   Reports(result.value[c], DecimalString(c), Lookup(Run(responses), DecimalString(c)), lists))
  }

  /** With the field-less base configuration every property reads `None`. */
  lemma BaseConfigReadsNone(m: RecognitionModel, name: string)
    requires m.Valid() && !m.config.isYandex
    ensures m.GetConfigParameter(name) == NoneValue
  {
  }
}
