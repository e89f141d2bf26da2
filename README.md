# Yandex SpeechKit client core, modelled in Dafny

This project models the core of the `speechkit` Python SDK that ships inside the
repository's virtual environment (`venv/lib/python3.10/site-packages/speechkit`). It covers:

- **Speech recognition.**
  - The `RecognitionModel` configuration handling.
  - The request stream of `YandexRecognizer`: session options, then fixed-size PCM chunks.
  - `_transcribe_impl`, which folds the service's response stream into per-channel
    utterances and builds one `Transcription` per audio channel. This is modelled with the
    word-list aliasing the source has.
  - The `Word`, `Utterance` and `Transcription` records.
- **Speech synthesis.**
  - The `SynthesisModel` configuration handling.
  - The request built by `YandexSynthesizer._gen_request`, including `_audio_spec` and
    `_norm_type`.
  - The steps of `_synthesize_impl`: forcing the encoding to WAV, the metadata, and
    concatenating the audio chunks.
- **Shared pieces.**
  - The credentials record and its constructor check.
  - The authorization header and call metadata.
  - The lazily created environment singleton.

How the Python maps onto Dafny:

- **Configuration objects.** A Python dataclass instance whose attributes are changed in
  place becomes a Dafny `class`. Its attribute dictionary is a `map<string, Value>`, so
  `hasattr` is key membership and `setattr` replaces a value. `Value` is the set of Python
  values the SDK inspects.
- **Word lists.** A Python list of words that `_transcribe_impl` appends to and clears is
  the class `WordList`. Each `Utterance` holds a reference to its channel's list, exactly as
  the source does.
- **Read-only records** (words, transcriptions, templates, requests) are datatypes.
- **Intended meaning of the response stream.** Module `SttStream` defines it as a pure fold,
  `Run`. It gives, per channel, the pending fragments and words and the sequence of
  snapshots flushed at each end of utterance.
  - The imperative aggregation (`SttAggregator.Aggregate`) is proved to track `Run` step by
    step.
  - The final result (`SttAggregator.TranscribeStream`) is stated against it. That
    includes where the source departs from it: every utterance of a channel shares one
    list, so after the stream the utterances show the words pending at the end, not the
    words they were created with.
- **Inputs instead of effects.** The gRPC exchange, the request id (a UUID in the source),
  the decoded audio and the recognition chunk size are inputs of the methods:
  - the service's responses are a sequence of events (recognition) or of audio chunks
    (synthesis);
  - a failure the service reports is an optional error message.

Modules, by file:

| file | module | source |
|---|---|---|
| wrappers.dfy | `Wrappers` | `Option` and `Result` |
| values.dfy | `Values` | Python values and the SDK's enumerations |
| seqs.dfy | `Seqs` | list slicing, `' '.join`, `sum` of lists, `str(int)` |
| creds.dfy | `Creds` | common/utils/creds.py |
| environment.dfy | `Environment` | common/utils/utils.py |
| yandex_call.dfy | `YandexCall` | authorization header and metadata, stt/yandex/model.py and tts/yandex/model.py |
| transcription.dfy | `SttTranscription` | stt/transcription.py |
| stt_config.dfy | `SttConfig` | stt/recognizer.py, stt/yandex/config.py |
| stt_stream.dfy | `SttStream` | the meaning of the response stream of stt/yandex/model.py |
| stt_requests.dfy | `SttRequests` | `__gen_requests`, stt/yandex/model.py |
| stt_aggregator.dfy | `SttAggregator` | `_transcribe_impl`'s loops, stt/yandex/model.py |
| recognizer.dfy | `SttRecognizer` | stt/recognizer.py, `YandexRecognizer` |
| tts_config.dfy | `TtsConfig` | tts/synthesizer.py, tts/yandex/config.py |
| tts_request.dfy | `YandexTts` | `_audio_spec`, `_norm_type`, `_gen_request`, tts/yandex/model.py |
| synthesizer.dfy | `TtsSynthesizer` | tts/synthesizer.py, `YandexSynthesizer` |

All source paths below are relative to the repository root, so they start with
`venv/lib/python3.10/site-packages/speechkit/`.

## Model

| member | source | states |
|---|---|---|
| Creds.NewCredentials | venv/lib/python3.10/site-packages/speechkit/common/utils/creds.py:5-8 | the constructor fails exactly when both secrets are given; one secret or none is accepted, and the record keeps the given values |
| Creds.NewCredentialsExactlyOne | venv/lib/python3.10/site-packages/speechkit/common/utils/creds.py:6 | the check the assertion message describes: accepted exactly when one secret is given, and then the same record as `NewCredentials` |
| YandexCall.AuthorizationHeader | venv/lib/python3.10/site-packages/speechkit/stt/yandex/model.py:107-111 | "Api-Key " plus the key when a key is set; otherwise "Bearer " plus the IAM token, which reads "Bearer None" when neither is set |
| YandexCall.RequestMetadata | venv/lib/python3.10/site-packages/speechkit/stt/yandex/model.py:113-120 | authorization first, then the request id, then the custom headers in order; the data-logging header is added last, only when `data_logging` is truthy |
| YandexCall.EmptyCredentialsSendBearerNone | venv/lib/python3.10/site-packages/speechkit/common/utils/creds.py:6 | credentials with neither secret pass the constructor and authorise with "Bearer None"; the exactly-one check refuses them |
| Environment.Environment.constructor | venv/lib/python3.10/site-packages/speechkit/common/utils/utils.py:13-14 | a new environment holds no credentials |
| Environment.Globals.constructor | venv/lib/python3.10/site-packages/speechkit/common/utils/utils.py:17 | at import time there is no environment object |
| Environment.Globals.GetEnvironment | venv/lib/python3.10/site-packages/speechkit/common/utils/utils.py:20-24 | the first call creates a fresh environment without credentials; every later call returns that same object |
| Environment.Globals.GetYandexCredentials | venv/lib/python3.10/site-packages/speechkit/common/utils/utils.py:27-28 | returns the credentials configured last, or none before any configuration |
| Environment.Globals.ConfigureCredentials | venv/lib/python3.10/site-packages/speechkit/common/utils/utils.py:31-35 | given credentials are stored in the singleton and replace earlier ones; `None` changes nothing |
| Seqs.Slice | venv/lib/python3.10/site-packages/speechkit/stt/yandex/model.py:84 | Python's clamped slice: the ordinary subsequence when the bounds are in range, never longer than the input |
| Seqs.Repeat | venv/lib/python3.10/site-packages/speechkit/stt/yandex/model.py:166 | summing `k` references to one list gives `k` times its length |
| Seqs.JoinAppend | venv/lib/python3.10/site-packages/speechkit/stt/yandex/model.py:143 | joining one more part adds it after a single space, or alone when nothing came before |
| Seqs.ConcatAppend | venv/lib/python3.10/site-packages/speechkit/tts/yandex/model.py:170-174 | concatenating one more part appends exactly that part |
| Seqs.DecimalString | venv/lib/python3.10/site-packages/speechkit/stt/yandex/model.py:162 | `str(channel)` is a non-empty string of decimal digits |
| Seqs.ParseDecimalString | venv/lib/python3.10/site-packages/speechkit/stt/yandex/model.py:162 | reading the digits back gives the channel number again |
| Seqs.DecimalStringInjective | venv/lib/python3.10/site-packages/speechkit/stt/yandex/model.py:161-162 | different channels get different tags |
| SttTranscription.WordList.constructor | venv/lib/python3.10/site-packages/speechkit/stt/yandex/model.py:102 | a channel's word list starts empty |
| SttTranscription.Utterance.DisplayText | venv/lib/python3.10/site-packages/speechkit/stt/transcription.py:78-79 | the normalised text is shown exactly when it is non-empty; otherwise reading the never-assigned `_raw_text` fails |
| SttTranscription.Utterance.DisplayTextIntended | venv/lib/python3.10/site-packages/speechkit/stt/transcription.py:78-79 | the intended text never fails, agrees with `DisplayText` wherever that succeeds, falls back to the utterance's text, and is empty only when both texts are |
| SttTranscription.Transcription.Display | venv/lib/python3.10/site-packages/speechkit/stt/transcription.py:129-130 | the normalised text when it is non-empty, else the raw text; empty exactly when neither has anything |
| SttTranscription.EmptyNormalizedTextIsPresent | venv/lib/python3.10/site-packages/speechkit/stt/transcription.py:65-66 | `has_normalized_text` counts the empty string as present on both records, while display falls back |
| SttTranscription.EmptyListsArePresent | venv/lib/python3.10/site-packages/speechkit/stt/transcription.py:72-120 | `has_words` and `has_utterances` test only for `None`, so an empty list counts as present |
| SttTranscription.UtteranceWithoutNormalizedTextFails | venv/lib/python3.10/site-packages/speechkit/stt/transcription.py:76-79 | an utterance with a text but no normalised text cannot be printed; the intended text is its own text |
| SttConfig.YandexRecognitionDefaults | venv/lib/python3.10/site-packages/speechkit/stt/yandex/config.py:8-12 | the four fields and their defaults: model and language `None`, processing `Full`, data logging `False` |
| SttConfig.RecognitionConfig.Base | venv/lib/python3.10/site-packages/speechkit/stt/recognizer.py:12-14 | the base configuration has no attributes |
| SttConfig.RecognitionConfig.Yandex | venv/lib/python3.10/site-packages/speechkit/stt/yandex/config.py:7-12 | a new Yandex configuration holds exactly the defaults |
| SttConfig.RecognitionConfig.EffectiveAttrs | venv/lib/python3.10/site-packages/speechkit/stt/yandex/model.py:91-92 | a Yandex configuration is used as it is; a base one is converted to the Yandex defaults |
| SttStream.ChannelOf | venv/lib/python3.10/site-packages/speechkit/stt/yandex/model.py:128 | an empty tag means channel "0"; any other tag is kept; the result is never empty |
| SttStream.Step | venv/lib/python3.10/site-packages/speechkit/stt/yandex/model.py:130-151 | one event on its own channel: snapshots are only added, one at a time behind the earlier ones, and exactly when an end of utterance finds words pending |
| SttStream.RunChannels | venv/lib/python3.10/site-packages/speechkit/stt/yandex/model.py:127-151 | the state after the response loop has an entry for exactly the channels some response names; any other channel reads as empty |
| SttStream.OneMoreResponse | venv/lib/python3.10/site-packages/speechkit/stt/yandex/model.py:127-151 | one event changes its own channel by one step and leaves every other channel as it was |
| SttStream.FinalResultAppends | venv/lib/python3.10/site-packages/speechkit/stt/yandex/model.py:130-134 | a final result with an alternative appends the first alternative's text and its words in order; with none, nothing changes |
| SttStream.RefinementAppends | venv/lib/python3.10/site-packages/speechkit/stt/yandex/model.py:136-139 | a refinement with an alternative appends its first normalised text; with none, nothing changes |
| SttStream.EndOfUtteranceFlushes | venv/lib/python3.10/site-packages/speechkit/stt/yandex/model.py:141-151 | with pending words, exactly one snapshot is flushed and all three pending lists are emptied; without, nothing changes and text fragments wait |
| SttStream.ChannelIsolation | venv/lib/python3.10/site-packages/speechkit/stt/yandex/model.py:127-151 | a channel's state is the replay of its own events alone, however the other channels are interleaved |
| SttStream.SilentChannelIsUnseen | venv/lib/python3.10/site-packages/speechkit/stt/yandex/model.py:99-102 | a channel no event names has nothing pending and nothing flushed |
| SttStream.FlushedHaveWords | venv/lib/python3.10/site-packages/speechkit/stt/yandex/model.py:141 | every flushed snapshot has at least one word |
| SttStream.StreamFlushedHaveWords | venv/lib/python3.10/site-packages/speechkit/stt/yandex/model.py:141-145 | the same for every channel of a whole stream, so an utterance's first and last word exist |
| SttStream.Conservation | venv/lib/python3.10/site-packages/speechkit/stt/yandex/model.py:130-151 | the flushed snapshots followed by the pending lists hold exactly the channel's final texts, refinements and words, in arrival order |
| SttStream.StepConserves | venv/lib/python3.10/site-packages/speechkit/stt/yandex/model.py:130-151 | one event adds exactly its own contribution behind the flushed and pending lists; a flush moves the pending lists behind the flushed ones without losing or reordering anything |
| SttStream.StreamConservation | venv/lib/python3.10/site-packages/speechkit/stt/yandex/model.py:127-151 | the same for each channel of a whole response stream |
| SttRequests.SessionOptionsFor | venv/lib/python3.10/site-packages/speechkit/stt/yandex/model.py:43-76 | the model is copied; no language gives an unspecified restriction, otherwise a whitelist of exactly that language; `Stream` gives real time and anything else full data; the fixed normalisation switches and the audio shape are set |
| SttRequests.Chunks | venv/lib/python3.10/site-packages/speechkit/stt/yandex/model.py:80-84 | one chunk per offset of `range(0, len(pcm), size)` |
| SttRequests.GenRequests | venv/lib/python3.10/site-packages/speechkit/stt/yandex/model.py:78-84 | the session options come first, then one request per chunk, in order |
| SttRequests.ChunkCountBounds | venv/lib/python3.10/site-packages/speechkit/stt/yandex/model.py:83 | the offsets cover the input, and the last offset lies inside it |
| SttRequests.ChunkAt | venv/lib/python3.10/site-packages/speechkit/stt/yandex/model.py:83-84 | every chunk starts inside the input; all but the last are full slices, the last runs to the end |
| SttRequests.ChunkSizes | venv/lib/python3.10/site-packages/speechkit/stt/yandex/model.py:83-84 | every chunk but the last has exactly `size` bytes; none is empty or longer than `size` |
| SttRequests.ChunksReassemble | venv/lib/python3.10/site-packages/speechkit/stt/yandex/model.py:78-84 | the chunks laid end to end are the PCM input |
| SttAggregator.UtteranceOf | venv/lib/python3.10/site-packages/speechkit/stt/yandex/model.py:142-148 | an utterance's text and normalised text are the single-space joins of the fragments; its span runs from the first word's start to the last word's end; it holds the channel's list itself |
| SttAggregator.AppendWords | venv/lib/python3.10/site-packages/speechkit/stt/yandex/model.py:133-134 | the list afterwards is the old list followed by the words, in order |
| SttAggregator.ConsumeFinal | venv/lib/python3.10/site-packages/speechkit/stt/yandex/model.py:130-134 | after a final result the accumulators still track the stream state advanced by that event; new lists are fresh and distinct per channel |
| SttAggregator.FinalKeepsTracking | venv/lib/python3.10/site-packages/speechkit/stt/yandex/model.py:130-134 | the bookkeeping of a final result agrees with one `Step` on its channel and no change elsewhere |
| SttAggregator.ConsumeRefinement | venv/lib/python3.10/site-packages/speechkit/stt/yandex/model.py:136-139 | after a refinement the accumulators track the advanced stream state |
| SttAggregator.ConsumeEndOfUtterance | venv/lib/python3.10/site-packages/speechkit/stt/yandex/model.py:141-151 | after an end of utterance the accumulators track the advanced stream state; the new utterance holds the channel's list, which is then emptied |
| SttAggregator.EndOfUtteranceKeepsTracking | venv/lib/python3.10/site-packages/speechkit/stt/yandex/model.py:141-151 | the flush appends the utterance of the pending snapshot and clears that channel only |
| SttAggregator.FlushTracksChannel | venv/lib/python3.10/site-packages/speechkit/stt/yandex/model.py:141-151 | on the flushed channel, the cleared accumulators and the utterance appended last agree with the flush of the pending snapshot |
| SttAggregator.Aggregate | venv/lib/python3.10/site-packages/speechkit/stt/yandex/model.py:99-151 | after the response loop each channel's list holds its pending words, and its utterances correspond one to one, in order, to its flushed snapshots, all sharing that list |
| SttAggregator.TextsOf | venv/lib/python3.10/site-packages/speechkit/stt/yandex/model.py:164 | the utterances' texts, one per utterance, in order |
| SttAggregator.NormalizedOf | venv/lib/python3.10/site-packages/speechkit/stt/yandex/model.py:165 | the utterances' normalised texts, one per utterance, in order |
| SttAggregator.SnapshotTexts | venv/lib/python3.10/site-packages/speechkit/stt/yandex/model.py:143 | the joined raw fragments of each flushed snapshot |
| SttAggregator.SnapshotNormalized | venv/lib/python3.10/site-packages/speechkit/stt/yandex/model.py:146 | the joined normalised fragments of each flushed snapshot |
| SttAggregator.ChannelTranscription | venv/lib/python3.10/site-packages/speechkit/stt/yandex/model.py:163-169 | a channel's transcription joins its utterances' texts, repeats the one shared list once per utterance, and carries the utterances and the tag |
| SttAggregator.Finalize | venv/lib/python3.10/site-packages/speechkit/stt/yandex/model.py:160-171 | exactly one transcription per audio channel, the c-th tagged `str(c)`; the words are summed from the lists as they stand after the stream |
| SttAggregator.MirroredTexts | venv/lib/python3.10/site-packages/speechkit/stt/yandex/model.py:164-165 | utterances that mirror snapshots carry the snapshots' joined texts |
| SttAggregator.NothingFlushedReportsEmptyLists | venv/lib/python3.10/site-packages/speechkit/stt/yandex/model.py:163-169 | a channel with nothing flushed is reported with empty texts and with empty word and utterance lists, which still count as present |
| SttAggregator.TranscribeStream | venv/lib/python3.10/site-packages/speechkit/stt/yandex/model.py:99-171 | one transcription per audio channel, tagged `str(c)`: its texts are the joins over the channel's flushed snapshots; its words are the words pending at the end, once per utterance; its utterances mirror the snapshots, and a channel with nothing flushed has none |
| SttAggregator.IntendedWords | venv/lib/python3.10/site-packages/speechkit/stt/yandex/model.py:141-151 | the intended words of a channel, with what is still pending, are exactly its final words in arrival order |
| SttAggregator.NothingPendingReportsNoWords | venv/lib/python3.10/site-packages/speechkit/stt/yandex/model.py:147-151 | when nothing is pending at the end, the transcription as written has no words, although every final word of the channel is meant to be there |
| SttAggregator.SharedWordListWitness | venv/lib/python3.10/site-packages/speechkit/stt/yandex/model.py:147-151 | one word and then an end of utterance: the utterance and the transcription report no words, the intended result is that word |
| SttRecognizer.RecognitionModel.constructor | venv/lib/python3.10/site-packages/speechkit/stt/recognizer.py:23-26 | the given configuration object is kept; without one, a fresh field-less configuration is installed |
| SttRecognizer.RecognitionModel.Yandex | venv/lib/python3.10/site-packages/speechkit/stt/yandex/model.py:18-26 | a fresh default Yandex configuration; missing custom headers become an empty list |
| SttRecognizer.RecognitionModel.GetConfigParameter | venv/lib/python3.10/site-packages/speechkit/stt/recognizer.py:70-74 | a supported name reads its value; an unsupported name reads `None` |
| SttRecognizer.RecognitionModel.SetConfigParameter | venv/lib/python3.10/site-packages/speechkit/stt/recognizer.py:76-80 | a supported name is replaced and reads back the new value; every other name reads as before; an unsupported name changes nothing |
| SttRecognizer.RecognitionModel.Transcribe | venv/lib/python3.10/site-packages/speechkit/stt/recognizer.py:39-54 | without a configuration argument the model's own configuration is used; no configuration object and no configured credentials change |
| SttRecognizer.RecognitionModel.TranscribeImpl | venv/lib/python3.10/site-packages/speechkit/stt/yandex/model.py:86-171 | more than two channels is refused before any call; missing credentials fail before the call; the call carries the metadata and the request stream; a reported failure is raised; otherwise one transcription per channel as `TranscribeStream` states; the configured credentials stay as they were |
| SttRecognizer.BaseConfigReadsNone | venv/lib/python3.10/site-packages/speechkit/stt/recognizer.py:82-136 | with the base configuration every property reads `None` |
| TtsConfig.SynthesisDefaults | venv/lib/python3.10/site-packages/speechkit/tts/synthesizer.py:21-24 | the base fields and defaults: WAV and no voice |
| TtsConfig.YandexSynthesisDefaults | venv/lib/python3.10/site-packages/speechkit/tts/yandex/config.py:40-49 | the inherited defaults plus sample rate 22050, LUFS, unsafe mode on, data logging off, and no model, role, speed or volume |
| TtsConfig.SynthesisConfig.Base | venv/lib/python3.10/site-packages/speechkit/tts/synthesizer.py:21-24 | a new base configuration holds its defaults |
| TtsConfig.SynthesisConfig.Yandex | venv/lib/python3.10/site-packages/speechkit/tts/yandex/config.py:40-49 | a new Yandex configuration holds its defaults |
| TtsConfig.SynthesisConfig.YandexFrom | venv/lib/python3.10/site-packages/speechkit/tts/yandex/model.py:140-141 | the conversion builds a new Yandex object holding the base configuration's values over the Yandex defaults |
| TtsConfig.ConversionKeepsValues | venv/lib/python3.10/site-packages/speechkit/tts/yandex/model.py:140-141 | the converted object has exactly the Yandex fields; it keeps every value of the base configuration, and each field only the Yandex class has takes its default |
| TtsConfig.NewAudioTemplate | venv/lib/python3.10/site-packages/speechkit/tts/yandex/config.py:27-32 | an audio template's sample rate defaults to `None` |
| YandexTts.AudioSpec | venv/lib/python3.10/site-packages/speechkit/tts/yandex/model.py:34-59 | PCM becomes raw LINEAR16 at the given rate; the three other encodings become containers; anything else gives no format |
| YandexTts.AudioSpecFaithful | venv/lib/python3.10/site-packages/speechkit/tts/yandex/model.py:34-59 | each encoding maps to a format standing for that same encoding, and only PCM depends on the sample rate |
| YandexTts.NormType | venv/lib/python3.10/site-packages/speechkit/tts/yandex/model.py:61-66 | MAX_PEAK and LUFS map to their request values; anything else to none |
| YandexTts.NormTypeInjective | venv/lib/python3.10/site-packages/speechkit/tts/yandex/model.py:61-66 | the mapping is one to one |
| YandexTts.DefaultTemplateRateIsUnset | venv/lib/python3.10/site-packages/speechkit/tts/yandex/config.py:32 | a PCM template with the default sample rate is sent with the rate unset |
| YandexTts.OptionalHintsOrdered | venv/lib/python3.10/site-packages/speechkit/tts/yandex/model.py:116-127 | voice, role, speed and volume hints come in that order, so each at most once |
| YandexTts.OptionalHintsCarrySetFields | venv/lib/python3.10/site-packages/speechkit/tts/yandex/model.py:116-127 | each hint carries the value of its own field, and only fields that are not `None` get one |
| YandexTts.OptionalHintsComplete | venv/lib/python3.10/site-packages/speechkit/tts/yandex/model.py:116-127 | every hint field that is not `None` has its hint |
| YandexTts.AppendOptionalHints | venv/lib/python3.10/site-packages/speechkit/tts/yandex/model.py:116-127 | the optional hints are added after the hints already in the request, which stay as they were |
| YandexTts.CopyTextVariables | venv/lib/python3.10/site-packages/speechkit/tts/yandex/model.py:89-92 | the template's text variables are copied one by one, in order |
| YandexTts.CopyAudioVariables | venv/lib/python3.10/site-packages/speechkit/tts/yandex/model.py:108-112 | the audio variables are copied with name, start and length, in order |
| YandexTts.GenRequest | venv/lib/python3.10/site-packages/speechkit/tts/yandex/model.py:68-128 | a template without an audio template and any unsupported input are refused. Otherwise the request carries the configuration's model, format, normalisation and unsafe mode. Plain text is sent as text with only the optional hints. A template is sent as a text template; the audio template hint comes first, carrying the audio, its format, the same text template and the audio variables |
| TtsSynthesizer.SynthesisModel.constructor | venv/lib/python3.10/site-packages/speechkit/tts/synthesizer.py:28-31 | the given configuration object is kept; without one, a fresh default configuration is installed |
| TtsSynthesizer.SynthesisModel.Yandex | venv/lib/python3.10/site-packages/speechkit/tts/yandex/model.py:17-25 | a fresh default Yandex configuration; missing custom headers become an empty list |
| TtsSynthesizer.SynthesisModel.GetConfigParameter | venv/lib/python3.10/site-packages/speechkit/tts/synthesizer.py:50-54 | a supported name reads its value; an unsupported name reads `None` |
| TtsSynthesizer.SynthesisModel.SetConfigParameter | venv/lib/python3.10/site-packages/speechkit/tts/synthesizer.py:56-60 | a supported name is replaced and reads back the new value; every other name reads as before; an unsupported name changes nothing |
| TtsSynthesizer.SynthesisModel.SynthesizeImpl | venv/lib/python3.10/site-packages/speechkit/tts/yandex/model.py:130-183 | a Yandex configuration object (the model's own, when none is passed) gets its encoding forced to WAV unless raw bytes are asked for; a base one is left alone. Missing credentials or a bad input fail before any call. The request sent is the one `GenRequest` builds from the input, the audio template and the prepared attributes. A reported failure is raised. Otherwise the result is every chunk end to end, as raw bytes or as WAV audio. The configured credentials stay as they were |
| TtsSynthesizer.SynthesisModel.Synthesize | venv/lib/python3.10/site-packages/speechkit/tts/yandex/model.py:185-192 | synthesises a plain text without an audio template: the request carries the text, no text template and only the optional hints. It uses the model's own configuration when none is passed; that configuration object gets the same WAV forcing, no other configuration object changes, and the configured credentials stay as they were |
| TtsSynthesizer.SynthesisModel.SynthesizeTemplate | venv/lib/python3.10/site-packages/speechkit/tts/yandex/model.py:194-202 | synthesises a text template with the given audio template: the request carries the template's text and variables, the audio-template hint first and then the optional hints, and a missing audio template is refused before any call. It uses the model's own configuration when none is passed; that configuration object gets the same WAV forcing, no other configuration object changes, and the configured credentials stay as they were |
| TtsSynthesizer.PrepareConfig | venv/lib/python3.10/site-packages/speechkit/tts/yandex/model.py:137-144 | only a Yandex configuration object is changed, and only its encoding, to WAV, when raw bytes are not asked for |
| TtsSynthesizer.ReadChunks | venv/lib/python3.10/site-packages/speechkit/tts/yandex/model.py:170-174 | the buffer ends up holding the received chunks end to end, in order |
| TtsSynthesizer.WorkingAttrs | venv/lib/python3.10/site-packages/speechkit/tts/yandex/model.py:137-144 | whatever the class of the configuration, the request is built from exactly the Yandex fields |
| TtsSynthesizer.WorkingAttrsValues | venv/lib/python3.10/site-packages/speechkit/tts/yandex/model.py:137-144 | the encoding the request sees is WAV unless raw bytes are asked for; every other field has the configuration's value, or its Yandex default when the configuration lacks it |
| TtsSynthesizer.Exchange | venv/lib/python3.10/site-packages/speechkit/tts/yandex/model.py:146-183 | missing credentials fail before the request is built; a bad input fails before anything is sent; the request sent carries the configuration, the text or the template with its audio-template hint, and the optional hints, exactly as `GenRequest` builds it; a reported failure is raised; otherwise the result is the chunks end to end |
| TtsSynthesizer.TextFormatAlwaysNone | venv/lib/python3.10/site-packages/speechkit/tts/synthesizer.py:104-116 | `text_format` is a field of neither configuration, so it always reads `None` |
| TtsSynthesizer.SampleRateByConfigClass | venv/lib/python3.10/site-packages/speechkit/tts/synthesizer.py:76-88 | `sample_rate` reads `None` on a base configuration and 22050 on a default Yandex one |

## Left out

- gRPC: channel creation, the channel-readiness retry loops in both Yandex constructors,
  stubs and the printing of diagnostics are left out. The service is replaced by its
  responses, or by the failure it reports, given as inputs.
- SttRecognizer.RecognitionModel.TranscribeImpl: the chunk size `int(sample_rate *
  sample_width * 0.2)` is a float computation, so it is taken as a parameter. A zero chunk
  size is modelled as failing right after the session options are sent, where
  `range(..., 0)` raises inside the request generator.
- SttRecognizer.RecognitionModel.TranscribeImpl: a failure is modelled as a whole-call
  outcome. Events received before it are discarded, as the source discards them by
  raising.
- The request id is a UUID in the source and an input here.
- Decoding audio with pydub is left out: `AudioSegment.from_file`, `set_sample_width`, and
  the `AudioSegment` built from the synthesised WAV bytes. Audio is given as channels,
  frame rate and PCM bytes, and a synthesis result is those WAV bytes.
- `transcribe_file` only adds decoding a file.
- Only the `final`, `final_refinement` and `eou_update` events are modelled. The source
  ignores every other kind of event.
- Protobuf type checks are left out. A configuration value of the wrong type, such as a
  non-string model, raises inside protobuf in the source. Here it is carried into the
  request unchanged.
- `__str__`/`__repr__` of `Word` and the seconds formatting of `Utterance` are left out,
  because they use float division and `:.3f` formatting. Only the choice of text is
  modelled.
- The property wrappers (`model`, `language`, `voice`, `speed`, and the rest) are modelled
  by `GetConfigParameter` and `SetConfigParameter` applied to the property's name, which is
  all they do.
- SttRecognizer.RecognitionModel.GetConfigParameter, SttRecognizer.RecognitionModel.SetConfigParameter,
  TtsSynthesizer.SynthesisModel.GetConfigParameter, TtsSynthesizer.SynthesisModel.SetConfigParameter,
  SttRecognizer.BaseConfigReadsNone: a name counts as supported exactly when it is one of the
  configuration's fields. Python's `hasattr` is also true for attributes every object inherits,
  such as `__dict__`; every property wrapper passes a field name, so those are not modelled.
- Attributes added to a configuration object by direct assignment, outside the setters, are
  not modelled. Each configuration holds exactly its class's fields.
- `model_repository.py` is not part of this model. It only dispatches to the constructors.
  The bot scripts, `main.py` and `app/transcribing.py` have no SDK logic and are not part
  of this model either.

## Findings

| source | as written | input that shows it | evidently intended | confidence | as-written member | corrected member |
|---|---|---|---|---|---|---|
| venv/lib/python3.10/site-packages/speechkit/stt/yandex/model.py:147-151 | the utterance keeps a reference to its channel's pending word list, which is cleared right after; the transcription sums those same lists at the end | on channel "0", a final result whose one alternative has the word "hi" (0-500 ms), then an end of utterance | the utterance and the transcription carry the word "hi" | not executed | SttAggregator.SharedWordListWitness | SttAggregator.IntendedWords |
| venv/lib/python3.10/site-packages/speechkit/stt/transcription.py:78-79 | falls back to `self._raw_text`, which `Utterance.__init__` never assigns | an utterance with text "hello" and no normalised text: printing it raises `AttributeError` | fall back to the utterance's text | not executed | SttTranscription.UtteranceWithoutNormalizedTextFails | SttTranscription.Utterance.DisplayTextIntended |
| venv/lib/python3.10/site-packages/speechkit/common/utils/creds.py:6 | the assertion sums the two "is None" flags, so it fails only when both secrets are given | `YandexCredentials()` with neither secret is accepted, and calls then send "Bearer None" | exactly one secret, as the message says | not executed | YandexCall.EmptyCredentialsSendBearerNone | Creds.NewCredentialsExactlyOne |
