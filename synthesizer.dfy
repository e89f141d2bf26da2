/**
  tts/synthesizer.py and the synthesis entry of `YandexSynthesizer` (tts/yandex/model.py):
  a synthesis model holds a configuration object, reads and writes its attributes by name,
  and turns text into audio.

  `_synthesize_impl` forces the output encoding to WAV unless raw bytes are asked for, and
  it does so on the configuration object it works with. When that object is a Yandex
  configuration (the model's own one included) the caller's object changes; a base
  configuration is first converted into a new object, so the caller's one stays as it was.
  The gRPC exchange is replaced by its inputs: the audio chunks the service streams back,
  or the failure it reports.
*/
module TtsSynthesizer {
  import opened Wrappers
  import opened Values
  import opened Seqs
  import opened Creds
  import opened Environment
  import opened YandexCall
  import opened TtsConfig
  import opened YandexTts

  /** What a synthesis returns: raw bytes, or the WAV bytes that `pydub.AudioSegment` decodes. */
  datatype SynthesisResult = RawBytes(data: seq<byte>) | AudioSegment(wav: seq<byte>)

  /** The call as it leaves the client: metadata and the one request. */
  datatype SynthesisCall = SynthesisCall(metadata: seq<Header>, request: UtteranceSynthesisRequest)

  /** `SynthesisModel`, with the custom headers `YandexSynthesizer` adds through `YandexModel`. */
  class SynthesisModel {
    var config: SynthesisConfig
    const customHeaders: seq<Header>

    predicate Valid()
      reads this, config
    {
      config.Valid()
    }

    /** `SynthesisModel(config)`: a missing configuration becomes a fresh default one. */
    constructor (config: SynthesisConfig?)
      requires config != null ==> config.Valid()
      ensures Valid() && customHeaders == []
      ensures config != null ==> this.config == config
      ensures config == null ==> fresh(this.config) && !this.config.isYandex && this.config.attrs == SynthesisDefaults()
    {
      if config == null {
        this.config := new SynthesisConfig.Base();
      } else {
        this.config := config;
      }
      customHeaders := [];
    }

    /** `YandexSynthesizer(custom_headers=...)`: a default Yandex configuration; `custom_headers or []`. */
    constructor Yandex(customHeaders: Option<seq<Header>>)
      ensures Valid() && fresh(config)
      ensures config.isYandex && config.attrs == YandexSynthesisDefaults()
      ensures this.customHeaders == if customHeaders.Some? then customHeaders.value else []
    {
      config := new SynthesisConfig.Yandex();
      this.customHeaders := if customHeaders.Some? then customHeaders.value else [];
    }

    /** `_get_config_parameter(name)`: the attribute when the configuration has it, else `None`. */
    function GetConfigParameter(name: string): (v: Value)
      reads this, config
      ensures name in config.attrs ==> v == config.attrs[name]
      ensures name !in config.attrs ==> v == NoneValue
    {
      if name in config.attrs then config.attrs[name] else NoneValue
    }

    /**
      `_set_config_parameter(name, value)`: replaces an attribute the configuration has;
      an unknown name is reported and ignored. Nothing but that one attribute changes.
    */
    method SetConfigParameter(name: string, value: Value)
      requires Valid()
      modifies config
      ensures Valid() && config.isYandex == old(config.isYandex)
      ensures name in old(config.attrs) ==> config.attrs == old(config.attrs)[name := value]
      ensures name !in old(config.attrs) ==> config.attrs == old(config.attrs)
      ensures name in old(config.attrs) ==> GetConfigParameter(name) == value
      ensures forall other :: other != name ==> GetConfigParameter(other) == old(GetConfigParameter(other))
    {
      if name in config.attrs {
        config.attrs := config.attrs[name := value];
      }
    }

    /**
      `_synthesize_impl(text, audio_template, synthesis_config, raw_format)`. The request
      id, the audio chunks of the response stream and a reported failure are inputs.
    */
    method SynthesizeImpl(input: SynthesisInput, audioTemplate: Option<AudioTemplate>,
                          synthesisConfig: SynthesisConfig?, rawFormat: bool, globals: Globals,
                          requestId: string, chunks: seq<seq<byte>>, failure: Option<string>)
      returns (result: Result<SynthesisResult, SynthesisError>, call: Option<SynthesisCall>)
      requires Valid() && (synthesisConfig != null ==> synthesisConfig.Valid())
      modifies globals, config, synthesisConfig
      ensures var used := if synthesisConfig == null then config else synthesisConfig;
        && used.Valid()
        && (used.isYandex && !rawFormat ==> used.attrs == old(used.attrs)["audio_encoding" := Encoding(WAV)])
        && (!used.isYandex || rawFormat ==> used.attrs == old(used.attrs))
        && Outcome(input, audioTemplate, WorkingAttrs(old(used.attrs), used.isYandex, rawFormat), rawFormat,
                   customHeaders, old(globals.Configured()), requestId, chunks, failure, result, call)
      ensures config == old(config)
      ensures synthesisConfig != null && synthesisConfig != config ==> config.attrs == old(config.attrs)
      ensures globals.Configured() == old(globals.Configured())
    {
      var used := if synthesisConfig == null then config else synthesisConfig;
      var attrs := PrepareConfig(used, rawFormat);
      var creds := globals.GetYandexCredentials();
      result, call := Exchange(input, audioTemplate, attrs, rawFormat, customHeaders, creds, requestId, chunks, failure);
    }

    /** `synthesize(text, synthesis_config, raw_format=...)`: a plain text and no audio template. */
    method Synthesize(text: string, synthesisConfig: SynthesisConfig?, rawFormat: bool, globals: Globals,
                      requestId: string, chunks: seq<seq<byte>>, failure: Option<string>)
      returns (result: Result<SynthesisResult, SynthesisError>, call: Option<SynthesisCall>)
      requires Valid() && (synthesisConfig != null ==> synthesisConfig.Valid())
      modifies globals, config, synthesisConfig
      ensures var used := if synthesisConfig == null then config else synthesisConfig;
        && used.Valid()
        && (used.isYandex && !rawFormat ==> used.attrs == old(used.attrs)["audio_encoding" := Encoding(WAV)])
        && (!used.isYandex || rawFormat ==> used.attrs == old(used.attrs))
        && Outcome(PlainText(text), None, WorkingAttrs(old(used.attrs), used.isYandex, rawFormat), rawFormat,
                   customHeaders, old(globals.Configured()), requestId, chunks, failure, result, call)
      ensures config == old(config)
      ensures synthesisConfig != null && synthesisConfig != config ==> config.attrs == old(config.attrs)
      ensures globals.Configured() == old(globals.Configured())
    {
      result, call := SynthesizeImpl(PlainText(text), None, synthesisConfig, rawFormat, globals, requestId, chunks, failure);
    }

    /** `synthesize_template(text, audio_template, synthesis_config, raw_format=...)`. */
    method SynthesizeTemplate(template: TextTemplate, audioTemplate: Option<AudioTemplate>,
                              synthesisConfig: SynthesisConfig?, rawFormat: bool, globals: Globals,
                              requestId: string, chunks: seq<seq<byte>>, failure: Option<string>)
      returns (result: Result<SynthesisResult, SynthesisError>, call: Option<SynthesisCall>)
      requires Valid() && (synthesisConfig != null ==> synthesisConfig.Valid())
      modifies globals, config, synthesisConfig
      ensures var used := if synthesisConfig == null then config else synthesisConfig;
        && used.Valid()
        && (used.isYandex && !rawFormat ==> used.attrs == old(used.attrs)["audio_encoding" := Encoding(WAV)])
        && (!used.isYandex || rawFormat ==> used.attrs == old(used.attrs))
        && Outcome(Template(template), audioTemplate, WorkingAttrs(old(used.attrs), used.isYandex, rawFormat), rawFormat,
                   customHeaders, old(globals.Configured()), requestId, chunks, failure, result, call)
      ensures config == old(config)
      ensures synthesisConfig != null && synthesisConfig != config ==> config.attrs == old(config.attrs)
      ensures globals.Configured() == old(globals.Configured())
    {
      result, call := SynthesizeImpl(Template(template), audioTemplate, synthesisConfig, rawFormat, globals, requestId, chunks, failure);
    }
  }

  /**
    The configuration steps of `_synthesize_impl`: a base configuration is converted into a
    new Yandex one, and the encoding of the object worked on is forced to WAV unless raw
    bytes are asked for. Returns the attributes the request is built from.
  */
  method PrepareConfig(used: SynthesisConfig, rawFormat: bool) returns (attrs: map<string, Value>)
    requires used.Valid()
    modifies used
    ensures used.Valid()
    ensures used.isYandex && !rawFormat ==> used.attrs == old(used.attrs)["audio_encoding" := Encoding(WAV)]
    ensures !used.isYandex || rawFormat ==> used.attrs == old(used.attrs)
    ensures attrs == WorkingAttrs(old(used.attrs), used.isYandex, rawFormat)
  {
    if used.isYandex {
      if !rawFormat {
        used.attrs := used.attrs["audio_encoding" := Encoding(WAV)];
      }
      attrs := used.attrs;
    } else {
      var working := new SynthesisConfig.YandexFrom(used);
      if !rawFormat {
        working.attrs := working.attrs["audio_encoding" := Encoding(WAV)];
      }
      attrs := working.attrs;
    }
  }

  /**
    The part of `_synthesize_impl` after the configuration is prepared: the credentials are
    read, the metadata and the request are built, and the audio chunks are collected.
  */
  method Exchange(input: SynthesisInput, audioTemplate: Option<AudioTemplate>, attrs: map<string, Value>,
                  rawFormat: bool, customHeaders: seq<Header>, creds: Option<Credentials>, requestId: string,
                  chunks: seq<seq<byte>>, failure: Option<string>)
    returns (result: Result<SynthesisResult, SynthesisError>, call: Option<SynthesisCall>)
    requires YandexSynthesisFields <= attrs.Keys
    ensures Outcome(input, audioTemplate, attrs, rawFormat, customHeaders, creds, requestId, chunks, failure, result, call)
  {
    if creds.None? {
      return Err(NoCredentials), None;
    }
    var metadata := RequestMetadata(creds.value, requestId, customHeaders, attrs["data_logging"]);
    var request := GenRequest(input, audioTemplate, attrs);
    if request.Err? {
      return Err(request.error), None;
    }
    call := Some(SynthesisCall(metadata, request.value));
    if failure.Some? {
      return Err(SynthesisFailed(failure.value)), call;
    }
    var wave := ReadChunks(chunks);
    result := Ok(if rawFormat then RawBytes(wave) else AudioSegment(wave));
  }

  /** `for r in it: wave.write(r.audio_chunk.data)`, then the buffer's bytes. */
  method ReadChunks(chunks: seq<seq<byte>>) returns (wave: seq<byte>)
    ensures wave == Concat(chunks)
  {
    wave := [];
    var i := 0;
    while i < |chunks|
      invariant 0 <= i <= |chunks|
      invariant wave == Concat(chunks[..i])
    {
      ConcatAppend(chunks[..i], chunks[i]);
      assert chunks[..i + 1] == chunks[..i] + [chunks[i]];
      wave := wave + chunks[i];
      i := i + 1;
    }
    assert chunks[..i] == chunks;
  }

  /**
    The attributes the request is built from: a Yandex configuration's own, or a base
    configuration's values over the Yandex defaults, with the encoding forced to WAV
    unless raw bytes are asked for.
  */
  function WorkingAttrs(attrs: map<string, Value>, isYandex: bool, rawFormat: bool): (w: map<string, Value>)
    requires attrs.Keys == if isYandex then YandexSynthesisFields else SynthesisFields
    ensures w.Keys == YandexSynthesisFields
  {
    var merged := if isYandex then attrs else ConvertedAttrs(attrs);
    if rawFormat then merged else merged["audio_encoding" := Encoding(WAV)]
  }

  /**
    The request sees WAV unless raw bytes are asked for, and otherwise every value of the
    configuration it was given, with the Yandex defaults for the fields that one lacks.
  */
  lemma WorkingAttrsValues(attrs: map<string, Value>, isYandex: bool, rawFormat: bool)
    requires attrs.Keys == if isYandex then YandexSynthesisFields else SynthesisFields
    ensures var w := WorkingAttrs(attrs, isYandex, rawFormat);
      && w["audio_encoding"] == (if rawFormat then attrs["audio_encoding"] else Encoding(WAV))
      && forall f :: f in w && f != "audio_encoding" ==>
           w[f] == if f in attrs then attrs[f] else YandexSynthesisDefaults()[f]
  {
  }

  /**
    What a synthesis call does: missing credentials fail before anything is sent; a bad
    input fails while the request is built, so nothing is sent either; a reported failure
    is raised after the request went out, which is the one `RequestFor` describes; otherwise
    the result is every received chunk, end to end and in order, as raw bytes or as WAV audio.
  */
  ghost predicate Outcome(input: SynthesisInput, audioTemplate: Option<AudioTemplate>,
                          attrs: map<string, Value>, rawFormat: bool, customHeaders: seq<Header>,
                          creds: Option<Credentials>, requestId: string, chunks: seq<seq<byte>>,
                          failure: Option<string>, result: Result<SynthesisResult, SynthesisError>,
                          call: Option<SynthesisCall>)
  {
    if creds.None? then result == Err(NoCredentials) && call == None
    else if input.Unsupported? then result == Err(UnsupportedInput(UnsupportedMessage(input.typeName))) && call == None
    else if input.Template? && audioTemplate.None? then result == Err(MissingAudioTemplate) && call == None
    else
      && YandexSynthesisFields <= attrs.Keys
      && call.Some?
      && call.value.metadata == RequestMetadata(creds.value, requestId, customHeaders, attrs["data_logging"])
      && RequestFor(input, audioTemplate, attrs, call.value.request)
      && (failure.Some? ==> result == Err(SynthesisFailed(failure.value)))
      && (failure.None? ==> result == Ok(if rawFormat then RawBytes(Concat(chunks)) else AudioSegment(Concat(chunks))))
  }

  /** `text_format` is a field of neither configuration class, so it always reads `None`. */
  lemma TextFormatAlwaysNone(m: SynthesisModel)
    requires m.Valid()
    ensures m.GetConfigParameter("text_format") == NoneValue
  {
  }

  /** `sample_rate` reads `None` on a base configuration and 22050 on a fresh Yandex one. */
  lemma SampleRateByConfigClass(m: SynthesisModel)
    requires m.Valid()
    ensures !m.config.isYandex ==> m.GetConfigParameter("sample_rate") == NoneValue
    ensures m.config.isYandex && m.config.attrs == YandexSynthesisDefaults() ==>
      m.GetConfigParameter("sample_rate") == Int(22050)
  {
  }
}
