/**
  stt/transcription.py: the records a recognition returns.

  `Word` and `Transcription` are modelled as values: their fields are set once in
  `__init__` and only read afterwards, so a datatype's fields are their accessors.
  `Utterance` is a value too, except for its word list: it keeps the very list object it
  was given (no copy), so that list is a heap object, `WordList`, whose later changes the
  utterance sees.
*/
module SttTranscription {
  import opened Wrappers

  /** `Word`: a token with its start and end time in milliseconds. */
  datatype Word = Word(word: string, startTimeMs: int, endTimeMs: int)

  /** A Python `list` of `Word` objects; `append` and `clear` change it in place. */
  class WordList {
    var items: seq<Word>

    constructor ()
      ensures items == []
    {
      items := [];
    }
  }

  /** `Utterance.__str__` reads `self._raw_text`, which `__init__` never assigns. */
  datatype DisplayError = AttributeErrorRawText

  /** `Utterance`: text, span, optional normalised text and the word list it was handed. */
  datatype Utterance = Utterance(
    text: string,
    startTimeMs: int,
    endTimeMs: int,
    normalizedText: Option<string>,
    words: Option<WordList>)
  {
    /** `has_normalized_text`: present unless `None`, so an empty string counts as present. */
    predicate HasNormalizedText() {
      normalizedText.Some?
    }

    /** `has_words`: the list is not `None` (an empty list counts). */
    predicate HasWords() {
      words.Some?
    }

    /**
      The text part of `Utterance.__str__`: the normalised text when it is non-empty;
      otherwise the fallback attribute is missing and the call raises.
    */
    function DisplayText(): (r: Result<string, DisplayError>)
      ensures r.Ok? <==> normalizedText.Some? && normalizedText.value != ""
      ensures r.Ok? ==> r.value == normalizedText.value
    {
      if normalizedText.Some? && normalizedText.value != "" then Ok(normalizedText.value)
      else Err(AttributeErrorRawText)
    }

    /**
      The text `Utterance.__str__` evidently means to show: the normalised text when it is
      non-empty, else the utterance's own text. It never fails, and it agrees with
      `DisplayText` wherever that succeeds.
    */
    function DisplayTextIntended(): (s: string)
      ensures DisplayText().Ok? ==> s == DisplayText().value
      ensures DisplayText().Err? ==> s == text
      ensures s == "" <==> text == "" && (normalizedText.None? || normalizedText.value == "")
    {
      if normalizedText.Some? && normalizedText.value != "" then normalizedText.value else text
    }
  }

  /** `Transcription`: the per-channel result. */
  datatype Transcription = Transcription(
    rawText: string,
    normalizedText: Option<string>,
    words: Option<seq<Word>>,
    utterances: Option<seq<Utterance>>,
    channel: Option<string>)
  {
    /** `has_normalized_text`: present unless `None`. */
    predicate HasNormalizedText() {
      normalizedText.Some?
    }

    /** `has_words`: present unless `None`. */
    predicate HasWords() {
      words.Some?
    }

    /** `has_utterances`: present unless `None`. */
    predicate HasUtterances() {
      utterances.Some?
    }

    /**
      `Transcription.__str__`: the normalised text when it is truthy, else the raw text.
      The result is empty exactly when neither text has anything to show.
    */
    function Display(): (s: string)
      ensures normalizedText.Some? && normalizedText.value != "" ==> s == normalizedText.value
      ensures normalizedText.None? || normalizedText.value == "" ==> s == rawText
      ensures s == "" <==> rawText == "" && (normalizedText.None? || normalizedText.value == "")
    {
      if normalizedText.Some? && normalizedText.value != "" then normalizedText.value else rawText
    }
  }

  /** `has_normalized_text` treats the empty string as present, on both records. */
  lemma EmptyNormalizedTextIsPresent(u: Utterance, t: Transcription)
    requires u.normalizedText == Some("") && t.normalizedText == Some("")
    ensures u.HasNormalizedText() && t.HasNormalizedText()
    ensures u.DisplayText().Err? && t.Display() == t.rawText
  {
  }

  /** `has_words` and `has_utterances` only ask for "not `None`", so empty lists count as present. */
  lemma EmptyListsArePresent(u: Utterance, t: Transcription)
    requires u.words.Some? && u.words.value.items == []
    requires t.words == Some([]) && t.utterances == Some([])
    ensures u.HasWords() && t.HasWords() && t.HasUtterances()
  {
  }

  /** An utterance without a normalised text cannot be printed, although it has a text to show. */
  lemma UtteranceWithoutNormalizedTextFails(text: string, startTimeMs: int, endTimeMs: int)
    requires text != ""
    ensures Utterance(text, startTimeMs, endTimeMs, None, None).DisplayText() == Err(AttributeErrorRawText)
    ensures Utterance(text, startTimeMs, endTimeMs, None, None).DisplayTextIntended() == text
  {
  }
}
