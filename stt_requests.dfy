/**
  The request stream `YandexRecognizer.__gen_requests` sends (stt/yandex/model.py): one
  session-options message, then the PCM bytes cut into fixed-size chunks.
*/
module SttRequests {
  import opened Values
  import opened Seqs
  import opened SttConfig

  /** `LanguageRestrictionOptions`: a whitelist of language codes, or no restriction. */
  datatype LanguageRestriction = Whitelist(languageCode: seq<Value>) | RestrictionUnspecified

  /** `RecognitionModelOptions.audio_processing_type`. */
  datatype ProcessingMode = RealTime | FullData

  /**
    `StreamingOptions` with the fields the SDK sets. The raw audio encoding is always
    LINEAR16_PCM, so it has no field here; the text-normalisation switches are constants.
  */
  datatype SessionOptions = SessionOptions(
    model: Value,
    sampleRateHertz: int,
    audioChannelCount: int,
    languageRestriction: LanguageRestriction,
    audioProcessingType: ProcessingMode,
    textNormalizationEnabled: bool,
    profanityFilter: bool,
    literatureText: bool)

  /** `StreamingRequest`: either the session options or one audio chunk. */
  datatype StreamingRequest = SessionRequest(options: SessionOptions) | ChunkRequest(data: seq<byte>)

  /** The session options built from a Yandex recognition configuration's attributes. */
  function SessionOptionsFor(attrs: map<string, Value>, sampleRate: int, channels: int): (o: SessionOptions)
    requires YandexRecognitionFields <= attrs.Keys
    ensures o.model == attrs["model"]
    ensures o.languageRestriction.RestrictionUnspecified? <==> attrs["language"] == NoneValue
    ensures o.languageRestriction.Whitelist? ==> o.languageRestriction.languageCode == [attrs["language"]]
    ensures o.audioProcessingType == RealTime <==> attrs["audio_processing_type"] == ProcessingType(Stream)
    ensures o.sampleRateHertz == sampleRate && o.audioChannelCount == channels
    ensures o.textNormalizationEnabled && !o.profanityFilter && o.literatureText
  {
    var restriction := if attrs["language"] != NoneValue then Whitelist([attrs["language"]]) else RestrictionUnspecified;
    var mode := if attrs["audio_processing_type"] == ProcessingType(Stream) then RealTime else FullData;
    SessionOptions(attrs["model"], sampleRate, channels, restriction, mode, true, false, true)
  }

  /** `len(range(0, n, size))`: the number of chunk offsets. */
  function ChunkCount(n: nat, size: nat): nat
    requires size > 0
  {
    (n + size - 1) / size
  }

  /** `pcm[i:i + size]` for every offset `i` in `range(0, len(pcm), size)`. */
  function Chunks(pcm: seq<byte>, size: nat): (cs: seq<seq<byte>>)
    requires size > 0
    ensures |cs| == ChunkCount(|pcm|, size)
  {
    seq(ChunkCount(|pcm|, size), k requires 0 <= k => Slice(pcm, k * size, k * size + size))
  }

  /** The whole request stream: session options first, then one request per chunk, in order. */
  function GenRequests(attrs: map<string, Value>, pcm: seq<byte>, channels: int, sampleRate: int, size: nat): (rs: seq<StreamingRequest>)
    requires YandexRecognitionFields <= attrs.Keys
    requires size > 0
    ensures |rs| == 1 + ChunkCount(|pcm|, size)
    ensures rs[0] == SessionRequest(SessionOptionsFor(attrs, sampleRate, channels))
    ensures forall k :: 0 <= k < |rs| - 1 ==> rs[k + 1] == ChunkRequest(Chunks(pcm, size)[k])
  {
    var cs := Chunks(pcm, size);
    [SessionRequest(SessionOptionsFor(attrs, sampleRate, channels))] + seq(|cs|, k requires 0 <= k < |cs| => ChunkRequest(cs[k]))
  }

  /** The offsets of `range(0, n, size)` stay below `n`, and the next offset after the last does not. */
  lemma ChunkCountBounds(n: nat, size: nat)
    requires size > 0
    ensures ChunkCount(n, size) * size >= n
    ensures ChunkCount(n, size) > 0 ==> (ChunkCount(n, size) - 1) * size < n
  {
    var q, r := (n + size - 1) / size, (n + size - 1) % size;
    assert n + size - 1 == q * size + r;
    if q > 0 {
      assert (q - 1) * size == q * size - size;
    }
  }

  lemma MulMonotone(a: nat, b: nat, c: nat)
    requires a <= b
    ensures a * c <= b * c
  {
  }

  /** Chunk `k` starts inside the input. */
  lemma ChunkStart(n: nat, size: nat, k: nat)
    requires size > 0 && k < ChunkCount(n, size)
    ensures k * size < n
  {
    ChunkCountBounds(n, size);
    MulMonotone(k, ChunkCount(n, size) - 1, size);
  }

  /** Chunk `k` starts inside the input; all but the last are full, the last runs to the end. */
  lemma ChunkAt(pcm: seq<byte>, size: nat, k: nat)
    requires size > 0 && k < ChunkCount(|pcm|, size)
    ensures k * size < |pcm|
    ensures k < ChunkCount(|pcm|, size) - 1 ==> k * size + size <= |pcm| && Chunks(pcm, size)[k] == pcm[k * size..k * size + size]
    ensures k == ChunkCount(|pcm|, size) - 1 ==> |pcm| <= k * size + size && Chunks(pcm, size)[k] == pcm[k * size..]
  {
    var n := ChunkCount(|pcm|, size);
    ChunkCountBounds(|pcm|, size);
    MulMonotone(k, n - 1, size);
    assert k * size + size == (k + 1) * size;
    if k < n - 1 {
      MulMonotone(k + 1, n - 1, size);
    } else {
      assert (k + 1) * size == n * size;
    }
  }

  /** Every chunk but the last has exactly `size` bytes; the last has between 1 and `size`. */
  lemma ChunkSizes(pcm: seq<byte>, size: nat)
    requires size > 0
    ensures forall k :: 0 <= k < |Chunks(pcm, size)| - 1 ==> |Chunks(pcm, size)[k]| == size
    ensures forall k :: 0 <= k < |Chunks(pcm, size)| ==> 0 < |Chunks(pcm, size)[k]| <= size
  {
    forall k | 0 <= k < |Chunks(pcm, size)|
      ensures k < |Chunks(pcm, size)| - 1 ==> |Chunks(pcm, size)[k]| == size
      ensures 0 < |Chunks(pcm, size)[k]| <= size
    {
      ChunkAt(pcm, size, k);
    }
  }

  /**
    A prefix of the input that ends at `lo`, followed by the chunk that starts there, is
    the prefix that ends where that chunk ends.
  */
  lemma JoinChunk(pcm: seq<byte>, prefix: seq<seq<byte>>, chunk: seq<byte>, lo: nat, size: nat)
    requires lo < |pcm|
    requires Concat(prefix) == pcm[..Min(lo, |pcm|)] && chunk == Slice(pcm, lo, lo + size)
    ensures Concat(prefix + [chunk]) == pcm[..Min(lo + size, |pcm|)]
  {
    var hi := Min(lo + size, |pcm|);
    ConcatAppend(prefix, chunk);
    assert pcm[..lo] + pcm[lo..hi] == pcm[..hi];
  }

  /** The offset after chunk `m` is one chunk further. */
  lemma NextOffset(m: nat, size: nat)
    ensures (m + 1) * size == m * size + size
  {
  }

  /** The first `m + 1` chunks are the first `m` followed by chunk `m`, which starts where they end. */
  lemma ReassembleStep(pcm: seq<byte>, size: nat, m: nat)
    requires size > 0 && m < ChunkCount(|pcm|, size)
    requires Concat(Chunks(pcm, size)[..m]) == pcm[..Min(m * size, |pcm|)]
    ensures Concat(Chunks(pcm, size)[..m + 1]) == pcm[..Min((m + 1) * size, |pcm|)]
  {
    var cs := Chunks(pcm, size);
    ChunkStart(|pcm|, size, m);
    NextOffset(m, size);
    var lo := m * size;
    assert cs[m] == Slice(pcm, lo, lo + size);
    assert cs[..m + 1] == cs[..m] + [cs[m]];
    JoinChunk(pcm, cs[..m], cs[m], lo, size);
  }

  /** Laid end to end, the chunks give back the PCM input exactly. */
  lemma ChunksReassemble(pcm: seq<byte>, size: nat)
    requires size > 0
    ensures Concat(Chunks(pcm, size)) == pcm
  {
    var n := ChunkCount(|pcm|, size);
    ChunkCountBounds(|pcm|, size);
    var m := 0;
    while m < n
      invariant 0 <= m <= n
      invariant Concat(Chunks(pcm, size)[..m]) == pcm[..Min(m * size, |pcm|)]
    {
      ReassembleStep(pcm, size, m);
      m := m + 1;
    }
    assert Chunks(pcm, size)[..n] == Chunks(pcm, size);
  }
}
