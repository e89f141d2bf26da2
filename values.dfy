/**
  The Python values that the SDK's configuration dataclasses hold.

  A dataclass attribute can be given any value through `setattr`, so configuration
  attributes range over this one type. The enumerations of the SDK live here as well,
  because they are among the values an attribute can hold:
  - `AudioProcessingType` of stt/recognizer.py,
  - `AudioEncoding` and `TextFormat` of tts/synthesizer.py,
  - `LoudnessNormalizationType` of tts/yandex/config.py.
*/
module Values {

  /** One element of a Python `bytes` object. */
  type byte = x: int | 0 <= x < 256

  /** stt/recognizer.py: `AudioProcessingType(Enum)` with members Full and Stream. */
  datatype AudioProcessingType = Full | Stream

  /** tts/synthesizer.py: `AudioEncoding(Enum)`, exactly four members. */
  datatype AudioEncoding = PCM | WAV | OGG_OPUS | MP3

  /** tts/synthesizer.py: `TextFormat(Enum)`. */
  datatype TextFormat = TEXT | SSML

  /** tts/yandex/config.py: `LoudnessNormalizationType(Enum)`, exactly two members. */
  datatype LoudnessNormalizationType = MAX_PEAK | LUFS

  /**
    A Python value as far as the SDK inspects it. Floats are carried as reals and only
    passed along, never computed with.
  */
  datatype Value =
    | NoneValue
    | Bool(b: bool)
    | Int(i: int)
    | Float(f: real)
    | Str(s: string)
    | ProcessingType(p: AudioProcessingType)
    | Encoding(e: AudioEncoding)
    | Format(t: TextFormat)
    | Normalization(n: LoudnessNormalizationType)

  /** Python truthiness (`if v:`): None, False, zero and the empty string are false; enum members are true. */
  predicate Truthy(v: Value) {
    match v
    case NoneValue => false
    case Bool(b) => b
    case Int(i) => i != 0
    case Float(f) => f != 0.0
    case Str(s) => s != ""
    case _ => true
  }
}
