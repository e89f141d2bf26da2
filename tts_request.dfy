/**
  The synthesis request that `YandexSynthesizer` builds (tts/yandex/model.py): the output
  format selection `_audio_spec`, the loudness mapping `_norm_type`, and `_gen_request`,
  which fills in the text or the text template and appends the hints. The protobuf messages
  become records that carry only the fields the SDK sets; an unset message field is `None`.
*/
module YandexTts {
  import opened Wrappers
  import opened Values
  import opened TtsConfig

  /** `RawAudio.AudioEncoding`: the only raw encoding the SDK asks for. */
  datatype RawEncoding = LINEAR16_PCM

  /** `ContainerAudio.ContainerAudioType`. */
  datatype ContainerType = ContainerWav | ContainerOggOpus | ContainerMp3

  /** `AudioFormatOptions`: raw samples at a given rate, or a container format. */
  datatype AudioFormatOptions =
    | RawAudio(audioEncoding: RawEncoding, sampleRateHertz: Value)
    | ContainerAudio(containerAudioType: ContainerType)

  /** `UtteranceSynthesisRequest.LoudnessNormalizationType`. */
  datatype RequestNormalization = RequestMaxPeak | RequestLufs

  /** A text template variable as sent. */
  datatype TextVariable = TextVariable(variableName: string, variableValue: string)

  /** `tts_pb2.TextTemplate`. */
  datatype TextTemplateRequest = TextTemplateRequest(textTemplate: string, variables: seq<TextVariable>)

  /** An audio template variable as sent. */
  datatype AudioVariable = AudioVariable(variableName: string, variableStartMs: int, variableLengthMs: int)

  /** `tts_pb2.AudioTemplate`: the recorded audio, its format, the text template and the audio variables. */
  datatype AudioTemplateRequest = AudioTemplateRequest(
    content: seq<byte>,
    audioSpec: Option<AudioFormatOptions>,
    textTemplate: TextTemplateRequest,
    variables: seq<AudioVariable>)

  /** One entry of `request.hints`; each sets exactly one of the hint's fields. */
  datatype Hint =
    | AudioTemplateHint(audioTemplate: AudioTemplateRequest)
    | VoiceHint(voice: Value)
    | RoleHint(role: Value)
    | SpeedHint(speed: Value)
    | VolumeHint(volume: Value)

  /** `UtteranceSynthesisRequest`: either `text` or `textTemplate` is set, never both. */
  datatype UtteranceSynthesisRequest = UtteranceSynthesisRequest(
    model: Value,
    outputAudioSpec: Option<AudioFormatOptions>,
    loudnessNormalizationType: Option<RequestNormalization>,
    unsafeMode: Value,
    text: Option<string>,
    textTemplate: Option<TextTemplateRequest>,
    hints: seq<Hint>)

  /** What the text argument of `_gen_request` can be. */
  datatype SynthesisInput =
    | PlainText(text: string)
    | Template(template: TextTemplate)
    | Unsupported(typeName: string)   // any other Python type, by its class name

  /** The exceptions a synthesis call raises. */
  datatype SynthesisError =
    | MissingAudioTemplate             // ValueError("provide audio template please")
    | UnsupportedInput(message: string)
    | NoCredentials                    // `get_yandex_credentials()` is None, so `.api_key` raises
    | SynthesisFailed(message: string) // the RPC reported an error; it is re-raised

  /** The message of the exception raised for an input of an unsupported type. */
  function UnsupportedMessage(typeName: string): string {
    "Class " + typeName + " is not supported input for synthesizer"
  }

  /**
    `_audio_spec(audio_format, sample_rate)`: PCM becomes raw LINEAR16 samples at the given
    rate; WAV, OGG_OPUS and MP3 become the container of the same name, where the rate is
    not used; anything else falls off the `if` chain and gives `None`.
  */
  function AudioSpec(audioFormat: Value, sampleRate: Value): (o: Option<AudioFormatOptions>)
    ensures o.Some? <==> audioFormat.Encoding?
    ensures audioFormat == Encoding(PCM) ==> o == Some(RawAudio(LINEAR16_PCM, sampleRate))
    ensures audioFormat.Encoding? && audioFormat.e != PCM ==> o.Some? && o.value.ContainerAudio?
  {
    match audioFormat
    case Encoding(PCM) => Some(RawAudio(LINEAR16_PCM, sampleRate))
    case Encoding(WAV) => Some(ContainerAudio(ContainerWav))
    case Encoding(OGG_OPUS) => Some(ContainerAudio(ContainerOggOpus))
    case Encoding(MP3) => Some(ContainerAudio(ContainerMp3))
    case _ => None
  }

  /** The SDK encoding an output format stands for. */
  function EncodingOf(o: AudioFormatOptions): AudioEncoding {
    match o
    case RawAudio(_, _) => PCM
    case ContainerAudio(ContainerWav) => WAV
    case ContainerAudio(ContainerOggOpus) => OGG_OPUS
    case ContainerAudio(ContainerMp3) => MP3
  }

  /**
    Every encoding is mapped to a format that stands for that same encoding, so different
    encodings never produce the same format; only PCM carries the sample rate.
  */
  lemma AudioSpecFaithful(e: AudioEncoding, sampleRate: Value, otherRate: Value)
    ensures AudioSpec(Encoding(e), sampleRate).Some?
    ensures EncodingOf(AudioSpec(Encoding(e), sampleRate).value) == e
    ensures e != PCM ==> AudioSpec(Encoding(e), sampleRate) == AudioSpec(Encoding(e), otherRate)
  {
  }

  /** `_norm_type(norm_type)`: MAX_PEAK and LUFS map to their request values; anything else to `None`. */
  function NormType(normType: Value): (n: Option<RequestNormalization>)
    ensures n.Some? <==> normType.Normalization?
    ensures normType == Normalization(MAX_PEAK) ==> n == Some(RequestMaxPeak)
    ensures normType == Normalization(LUFS) ==> n == Some(RequestLufs)
  {
    match normType
    case Normalization(MAX_PEAK) => Some(RequestMaxPeak)
    case Normalization(LUFS) => Some(RequestLufs)
    case _ => None
  }

  /** `NormType` is one to one on the two normalisation types. */
  lemma NormTypeInjective(a: LoudnessNormalizationType, b: LoudnessNormalizationType)
    ensures NormType(Normalization(a)) == NormType(Normalization(b)) <==> a == b
  {
  }

  /** A template built with the dataclass's default sample rate sends its PCM audio with the rate unset. */
  lemma DefaultTemplateRateIsUnset(audio: seq<byte>, variables: seq<AudioTemplateVar>)
    ensures var t := NewAudioTemplate(audio, variables, Encoding(PCM));
      AudioSpec(t.audioFormat, t.sampleRate) == Some(RawAudio(LINEAR16_PCM, NoneValue))
  {
  }

  /** The position of a hint kind in the order `_gen_request` appends them. */
  function Rank(h: Hint): nat {
    match h
    case AudioTemplateHint(_) => 0
    case VoiceHint(_) => 1
    case RoleHint(_) => 2
    case SpeedHint(_) => 3
    case VolumeHint(_) => 4
  }

  /** The configuration field a hint carries, "" for the audio template hint. */
  function HintField(h: Hint): string {
    match h
    case AudioTemplateHint(_) => ""
    case VoiceHint(_) => "voice"
    case RoleHint(_) => "role"
    case SpeedHint(_) => "speed"
    case VolumeHint(_) => "volume"
  }

  /** The value a configuration hint carries. */
  function HintValue(h: Hint): Value {
    match h
    case AudioTemplateHint(_) => NoneValue
    case VoiceHint(v) => v
    case RoleHint(v) => v
    case SpeedHint(v) => v
    case VolumeHint(v) => v
  }

  /** The configuration fields that may become hints. */
  const HintFields: set<string> := {"voice", "role", "speed", "volume"}

  /** The hints appended after the text: voice, role, speed, volume, each only when not `None`. */
  function OptionalHints(attrs: map<string, Value>): seq<Hint>
    requires HintFields <= attrs.Keys
  {
    (if attrs["voice"] != NoneValue then [VoiceHint(attrs["voice"])] else [])
    + (if attrs["role"] != NoneValue then [RoleHint(attrs["role"])] else [])
    + (if attrs["speed"] != NoneValue then [SpeedHint(attrs["speed"])] else [])
    + (if attrs["volume"] != NoneValue then [VolumeHint(attrs["volume"])] else [])
  }

  /** Hint kinds appear in strictly increasing rank, so each kind at most once. */
  predicate Increasing(hs: seq<Hint>) {
    forall i, j :: 0 <= i < j < |hs| ==> Rank(hs[i]) < Rank(hs[j])
  }

  /** Every hint has a rank below `n`. */
  predicate RanksBelow(hs: seq<Hint>, n: nat) {
    forall k :: 0 <= k < |hs| ==> Rank(hs[k]) < n
  }

  /** Every hint carries a configuration field that is set, with that field's value. */
  predicate CarriesSetFields(hs: seq<Hint>, attrs: map<string, Value>)
    requires HintFields <= attrs.Keys
  {
    forall k :: 0 <= k < |hs| ==>
      1 <= Rank(hs[k]) && HintField(hs[k]) in HintFields
      && HintValue(hs[k]) == attrs[HintField(hs[k])] && HintValue(hs[k]) != NoneValue
  }

  /** Appending at most one hint of a rank above all earlier ones keeps the order. */
  lemma AppendIncreasing(a: seq<Hint>, b: seq<Hint>, n: nat)
    requires Increasing(a) && RanksBelow(a, n)
    requires |b| <= 1 && forall k :: 0 <= k < |b| ==> Rank(b[k]) == n
    ensures Increasing(a + b) && RanksBelow(a + b, n + 1)
  {
  }

  /** Joining two runs of hints that each carry set fields gives one that does. */
  lemma ConcatCarries(a: seq<Hint>, b: seq<Hint>, attrs: map<string, Value>)
    requires HintFields <= attrs.Keys
    requires CarriesSetFields(a, attrs) && CarriesSetFields(b, attrs)
    ensures CarriesSetFields(a + b, attrs)
  {
    forall k | 0 <= k < |a + b|
      ensures (a + b)[k] == if k < |a| then a[k] else b[k - |a|]
    {
    }
  }

  /** The optional hints come in strictly increasing rank, so each field at most once. */
  lemma OptionalHintsOrdered(attrs: map<string, Value>)
    requires HintFields <= attrs.Keys
    ensures Increasing(OptionalHints(attrs))
  {
    var v := if attrs["voice"] != NoneValue then [VoiceHint(attrs["voice"])] else [];
    var r := if attrs["role"] != NoneValue then [RoleHint(attrs["role"])] else [];
    var s := if attrs["speed"] != NoneValue then [SpeedHint(attrs["speed"])] else [];
    var w := if attrs["volume"] != NoneValue then [VolumeHint(attrs["volume"])] else [];
    assert OptionalHints(attrs) == v + r + s + w;
    AppendIncreasing(v, r, 2);
    AppendIncreasing(v + r, s, 3);
    AppendIncreasing(v + r + s, w, 4);
  }

  /** Each optional hint carries the value of its field, which is not `None`. */
  lemma OptionalHintsCarrySetFields(attrs: map<string, Value>)
    requires HintFields <= attrs.Keys
    ensures CarriesSetFields(OptionalHints(attrs), attrs)
  {
    var v := if attrs["voice"] != NoneValue then [VoiceHint(attrs["voice"])] else [];
    var r := if attrs["role"] != NoneValue then [RoleHint(attrs["role"])] else [];
    var s := if attrs["speed"] != NoneValue then [SpeedHint(attrs["speed"])] else [];
    var w := if attrs["volume"] != NoneValue then [VolumeHint(attrs["volume"])] else [];
    assert OptionalHints(attrs) == v + r + s + w;
    ConcatCarries(v, r, attrs);
    ConcatCarries(v + r, s, attrs);
    ConcatCarries(v + r + s, w, attrs);
  }

  /** Every hint field that is not `None` has its hint. */
  lemma OptionalHintsComplete(attrs: map<string, Value>, f: string)
    requires HintFields <= attrs.Keys
    requires f in HintFields && attrs[f] != NoneValue
    ensures exists k :: 0 <= k < |OptionalHints(attrs)| && HintField(OptionalHints(attrs)[k]) == f
  {
    var v := if attrs["voice"] != NoneValue then [VoiceHint(attrs["voice"])] else [];
    var r := if attrs["role"] != NoneValue then [RoleHint(attrs["role"])] else [];
    var s := if attrs["speed"] != NoneValue then [SpeedHint(attrs["speed"])] else [];
    var w := if attrs["volume"] != NoneValue then [VolumeHint(attrs["volume"])] else [];
    var hs := OptionalHints(attrs);
    assert hs == v + r + s + w;
    if f == "voice" { assert HintField(hs[0]) == f; }
    else if f == "role" { assert HintField(hs[|v|]) == f; }
    else if f == "speed" { assert HintField(hs[|v| + |r|]) == f; }
    else { assert HintField(hs[|v| + |r| + |s|]) == f; }
  }

  /** `vs` are the template's text variables, copied one by one in order. */
  predicate CopiesTextVariables(vs: seq<TextVariable>, tvs: seq<TextTemplateVar>) {
    |vs| == |tvs| && forall k :: 0 <= k < |vs| ==> vs[k] == TextVariable(tvs[k].name, tvs[k].value)
  }

  /** `vs` are the audio template's variables, copied one by one in order. */
  predicate CopiesAudioVariables(vs: seq<AudioVariable>, avs: seq<AudioTemplateVar>) {
    |vs| == |avs| && forall k :: 0 <= k < |vs| ==> vs[k] == AudioVariable(avs[k].name, avs[k].startMs, avs[k].lengthMs)
  }

  /** The fields `_gen_request` sets from the configuration before looking at the text. */
  predicate CarriesConfig(r: UtteranceSynthesisRequest, attrs: map<string, Value>)
    requires YandexSynthesisFields <= attrs.Keys
  {
    && r.model == attrs["model"]
    && r.outputAudioSpec == AudioSpec(attrs["audio_encoding"], attrs["sample_rate"])
    && r.loudnessNormalizationType == NormType(attrs["norm_type"])
    && r.unsafeMode == attrs["unsafe_mode"]
  }

  /** The `for text_var in text.variables` loop. */
  method CopyTextVariables(tvs: seq<TextTemplateVar>) returns (vs: seq<TextVariable>)
    ensures CopiesTextVariables(vs, tvs)
  {
    vs := [];
    var k := 0;
    while k < |tvs|
      invariant 0 <= k <= |tvs| && CopiesTextVariables(vs, tvs[..k])
    {
      vs := vs + [TextVariable(tvs[k].name, tvs[k].value)];
      k := k + 1;
    }
  }

  /** The `for audio_var in audio_template.variables` loop. */
  method CopyAudioVariables(avs: seq<AudioTemplateVar>) returns (vs: seq<AudioVariable>)
    ensures CopiesAudioVariables(vs, avs)
  {
    vs := [];
    var k := 0;
    while k < |avs|
      invariant 0 <= k <= |avs| && CopiesAudioVariables(vs, avs[..k])
    {
      vs := vs + [AudioVariable(avs[k].name, avs[k].startMs, avs[k].lengthMs)];
      k := k + 1;
    }
  }

  /** The four `if synthesis_config.<field> is not None` appends at the end of `_gen_request`. */
  method AppendOptionalHints(hints: seq<Hint>, attrs: map<string, Value>) returns (hs: seq<Hint>)
    requires HintFields <= attrs.Keys
    ensures hs == hints + OptionalHints(attrs)
  {
    hs := hints;
    if attrs["voice"] != NoneValue {
      hs := hs + [VoiceHint(attrs["voice"])];
    }
    if attrs["role"] != NoneValue {
      hs := hs + [RoleHint(attrs["role"])];
    }
    if attrs["speed"] != NoneValue {
      hs := hs + [SpeedHint(attrs["speed"])];
    }
    if attrs["volume"] != NoneValue {
      hs := hs + [VolumeHint(attrs["volume"])];
    }
  }

  /**
    The request built for an accepted input. It carries the configuration. A plain text is
    sent as `text` with only the optional hints. A template is sent as `textTemplate` with
    its variables copied; the first hint is the audio template, which carries the recorded
    audio in its own format, the same text template and the audio variables, and the
    optional hints follow it.
  */
  predicate RequestFor(input: SynthesisInput, audioTemplate: Option<AudioTemplate>, attrs: map<string, Value>,
                       r: UtteranceSynthesisRequest)
    requires YandexSynthesisFields <= attrs.Keys
  {
    && CarriesConfig(r, attrs)
    && !input.Unsupported?
    && (input.PlainText? ==>
          && r.text == Some(input.text) && r.textTemplate == None
          && r.hints == OptionalHints(attrs))
    && (input.Template? ==>
          && audioTemplate.Some?
          && r.text == None && r.textTemplate.Some?
          && r.textTemplate.value.textTemplate == input.template.text
          && CopiesTextVariables(r.textTemplate.value.variables, input.template.variables)
          && |r.hints| >= 1 && r.hints[0].AudioTemplateHint?
          && r.hints[0].audioTemplate.content == audioTemplate.value.audio
          && r.hints[0].audioTemplate.audioSpec == AudioSpec(audioTemplate.value.audioFormat, audioTemplate.value.sampleRate)
          && r.hints[0].audioTemplate.textTemplate == r.textTemplate.value
          && CopiesAudioVariables(r.hints[0].audioTemplate.variables, audioTemplate.value.variables)
          && r.hints[1..] == OptionalHints(attrs))
  }

  /**
    `_gen_request(text, audio_template, synthesis_config)`. A plain text is sent as `text`
    with only the configuration hints. A template needs an audio template: its text and
    variables are sent as `textTemplate`, and the first hint is the audio template, which
    carries the recorded audio in its own format, the same text template and the audio
    variables. Any other input is refused.
  */
  method GenRequest(input: SynthesisInput, audioTemplate: Option<AudioTemplate>, attrs: map<string, Value>)
    returns (r: Result<UtteranceSynthesisRequest, SynthesisError>)
    requires YandexSynthesisFields <= attrs.Keys
    ensures r.Err? <==> input.Unsupported? || (input.Template? && audioTemplate.None?)
    ensures input.Template? && audioTemplate.None? ==> r == Err(MissingAudioTemplate)
    ensures input.Unsupported? ==> r == Err(UnsupportedInput(UnsupportedMessage(input.typeName)))
    ensures r.Ok? ==> RequestFor(input, audioTemplate, attrs, r.value)
  {
    var request := UtteranceSynthesisRequest(attrs["model"], AudioSpec(attrs["audio_encoding"], attrs["sample_rate"]),
                                             NormType(attrs["norm_type"]), attrs["unsafe_mode"], None, None, []);
    match input {
      case PlainText(text) =>
        request := request.(text := Some(text));
      case Template(template) =>
        if audioTemplate.None? {
          return Err(MissingAudioTemplate);
        }
        var textVariables := CopyTextVariables(template.variables);
        var textTemplate := TextTemplateRequest(template.text, textVariables);
        request := request.(textTemplate := Some(textTemplate));
        var at := audioTemplate.value;
        var audioVariables := CopyAudioVariables(at.variables);
        var hint := AudioTemplateHint(AudioTemplateRequest(at.audio, AudioSpec(at.audioFormat, at.sampleRate),
                                                           textTemplate, audioVariables));
        request := request.(hints := request.hints + [hint]);
      case Unsupported(typeName) =>
        return Err(UnsupportedInput(UnsupportedMessage(typeName)));
    }
    var hints := AppendOptionalHints(request.hints, attrs);
    request := request.(hints := hints);
    r := Ok(request);
  }
}
