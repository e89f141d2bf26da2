/**
  The recognition configuration objects: the field-less `RecognitionConfig` of
  stt/recognizer.py and its subclass `YandexRecognitionConfig` of stt/yandex/config.py.
  A dataclass instance is modelled by its attribute dictionary; `hasattr` is membership
  of a key and `setattr` on an existing attribute replaces its value.
*/
module SttConfig {
  import opened Values

  /** The attributes of a `YandexRecognitionConfig`. */
  const YandexRecognitionFields: set<string> := {"model", "language", "audio_processing_type", "data_logging"}

  /** The dataclass defaults of `YandexRecognitionConfig`. */
  function YandexRecognitionDefaults(): (d: map<string, Value>)
    ensures d.Keys == YandexRecognitionFields
    ensures d["model"] == NoneValue && d["language"] == NoneValue
    ensures d["audio_processing_type"] == ProcessingType(Full)
    ensures d["data_logging"] == Bool(false)
  {
    map["model" := NoneValue, "language" := NoneValue,
        "audio_processing_type" := ProcessingType(Full), "data_logging" := Bool(false)]
  }

  /** A configuration object; `isYandex` is its class, `attrs` its `__dict__`. */
  class RecognitionConfig {
    const isYandex: bool
    var attrs: map<string, Value>

    /** The attributes are exactly the fields of the object's class. */
    predicate Valid()
      reads this
    {
      attrs.Keys == if isYandex then YandexRecognitionFields else {}
    }

    /** `RecognitionConfig()`: a dataclass with no fields. */
    constructor Base()
      ensures Valid() && !isYandex && attrs == map[]
    {
      isYandex := false;
      attrs := map[];
    }

    /** `YandexRecognitionConfig()` with every field at its default. */
    constructor Yandex()
      ensures Valid() && isYandex && attrs == YandexRecognitionDefaults()
    {
      isYandex := true;
      attrs := YandexRecognitionDefaults();
    }

    /**
      The attributes `_transcribe_impl` works with: the object's own when it already is a
      `YandexRecognitionConfig`, else `YandexRecognitionConfig(**config.__dict__)`, that is
      the defaults overridden by whatever the object holds (nothing, for the base class).
    */
    function EffectiveAttrs(): (a: map<string, Value>)
      reads this
      requires Valid()
      ensures a.Keys == YandexRecognitionFields
      ensures isYandex ==> a == attrs
      ensures !isYandex ==> a == YandexRecognitionDefaults()
    {
      if isYandex then attrs else YandexRecognitionDefaults() + attrs
    }
  }
}
