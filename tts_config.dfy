/**
  The synthesis configuration objects: `SynthesisConfig` of tts/synthesizer.py and its
  subclass `YandexSynthesisConfig` of tts/yandex/config.py, plus the template records of
  tts/yandex/config.py. As for recognition, a configuration object is its attribute
  dictionary, and `setattr` may store any value.
*/
module TtsConfig {
  import opened Values

  /** The fields of `SynthesisConfig`. */
  const SynthesisFields: set<string> := {"audio_encoding", "voice"}

  /** The fields `YandexSynthesisConfig` adds. */
  const YandexOnlyFields: set<string> :=
    {"model", "sample_rate", "role", "speed", "volume", "norm_type", "unsafe_mode", "data_logging"}

  /** All fields of `YandexSynthesisConfig`: the inherited ones and its own. */
  const YandexSynthesisFields: set<string> := SynthesisFields + YandexOnlyFields

  /** The dataclass defaults of `SynthesisConfig`. */
  function SynthesisDefaults(): (d: map<string, Value>)
    ensures d.Keys == SynthesisFields
    ensures d["audio_encoding"] == Encoding(WAV) && d["voice"] == NoneValue
  {
    map["audio_encoding" := Encoding(WAV), "voice" := NoneValue]
  }

  /** The dataclass defaults of `YandexSynthesisConfig`, inherited fields included. */
  function YandexSynthesisDefaults(): (d: map<string, Value>)
    ensures d.Keys == YandexSynthesisFields
    ensures d["audio_encoding"] == Encoding(WAV) && d["voice"] == NoneValue
    ensures d["sample_rate"] == Int(22050) && d["norm_type"] == Normalization(LUFS)
    ensures d["unsafe_mode"] == Bool(true) && d["data_logging"] == Bool(false)
    ensures d["model"] == NoneValue && d["role"] == NoneValue && d["speed"] == NoneValue && d["volume"] == NoneValue
  {
    SynthesisDefaults() + map["model" := NoneValue, "sample_rate" := Int(22050), "role" := NoneValue,
                              "speed" := NoneValue, "volume" := NoneValue, "norm_type" := Normalization(LUFS),
                              "unsafe_mode" := Bool(true), "data_logging" := Bool(false)]
  }

  /** A synthesis configuration object; `isYandex` is its class, `attrs` its `__dict__`. */
  class SynthesisConfig {
    const isYandex: bool
    var attrs: map<string, Value>

    /** The attributes are exactly the fields of the object's class. */
    predicate Valid()
      reads this
    {
      attrs.Keys == if isYandex then YandexSynthesisFields else SynthesisFields
    }

    /** `SynthesisConfig()`. */
    constructor Base()
      ensures Valid() && !isYandex && attrs == SynthesisDefaults()
    {
      isYandex := false;
      attrs := SynthesisDefaults();
    }

    /** `YandexSynthesisConfig()`. */
    constructor Yandex()
      ensures Valid() && isYandex && attrs == YandexSynthesisDefaults()
    {
      isYandex := true;
      attrs := YandexSynthesisDefaults();
    }

    /**
      `YandexSynthesisConfig(**config.__dict__)` for a base configuration: a new object whose
      inherited fields keep the given values and whose own fields take their defaults.
    */
    constructor YandexFrom(base: SynthesisConfig)
      requires base.Valid() && !base.isYandex
      ensures Valid() && isYandex && attrs == ConvertedAttrs(base.attrs)
    {
      isYandex := true;
      attrs := ConvertedAttrs(base.attrs);
    }
  }

  /** The `__dict__` of `YandexSynthesisConfig(**attrs)`: the Yandex defaults overridden by `attrs`. */
  function ConvertedAttrs(attrs: map<string, Value>): map<string, Value> {
    YandexSynthesisDefaults() + attrs
  }

  /**
    Converting a base configuration keeps every value it had and gives each field only the
    Yandex class has its default, so the result has exactly the Yandex fields.
  */
  lemma ConversionKeepsValues(attrs: map<string, Value>)
    requires attrs.Keys == SynthesisFields
    ensures ConvertedAttrs(attrs).Keys == YandexSynthesisFields
    ensures forall f :: f in SynthesisFields ==> ConvertedAttrs(attrs)[f] == attrs[f]
    ensures forall f :: f in YandexOnlyFields ==> ConvertedAttrs(attrs)[f] == YandexSynthesisDefaults()[f]
  {
  }

  /** `TextTemplateVar`: a variable's name and its value in the text. */
  datatype TextTemplateVar = TextTemplateVar(name: string, value: string)

  /** `TextTemplate`: the template text and its variables, in order. */
  datatype TextTemplate = TextTemplate(text: string, variables: seq<TextTemplateVar>)

  /** `AudioTemplateVar`: a variable's name and where it sits in the audio. */
  datatype AudioTemplateVar = AudioTemplateVar(name: string, startMs: int, lengthMs: int)

  /**
    `AudioTemplate`: recorded audio, its variables in order, its format and sample rate.
    The format and rate are stored untyped, as the dataclass stores whatever it is given.
  */
  datatype AudioTemplate = AudioTemplate(audio: seq<byte>, variables: seq<AudioTemplateVar>,
                                         audioFormat: Value, sampleRate: Value)

  /** `AudioTemplate(audio, variables, audio_format)`: the sample rate defaults to `None`. */
  function NewAudioTemplate(audio: seq<byte>, variables: seq<AudioTemplateVar>, audioFormat: Value): (t: AudioTemplate)
    ensures t.sampleRate == NoneValue
    ensures t.audio == audio && t.variables == variables && t.audioFormat == audioFormat
  {
    AudioTemplate(audio, variables, audioFormat, NoneValue)
  }
}
