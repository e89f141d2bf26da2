/**
  `YandexRecognizer._transcribe_impl` (stt/yandex/model.py): the loop that folds the
  response stream into per-channel utterances, and the loop that then builds one
  `Transcription` per audio channel.

  The four `defaultdict(list)` accumulators are maps from channel tag to list. The raw and
  normalised fragment lists are never shared, so they are values; the word lists are
  `WordList` objects, because each `Utterance` keeps a reference to its channel's pending
  list, which `clear()` then empties. A channel keeps one list object for the whole stream,
  so every utterance of a channel ends up showing the words pending when the stream ended.
*/
module SttAggregator {
  import opened Wrappers
  import opened Seqs
  import opened SttTranscription
  import opened SttStream

  /** Different channels own different word lists. */
  predicate DistinctLists(lists: map<string, WordList>) {
    forall t, u :: t in lists && u in lists && t != u ==> lists[t] != lists[u]
  }

  /** The utterance the source builds from a flushed snapshot; its word list is `list` itself. */
  function UtteranceOf(p: Pending, list: WordList): (u: Utterance)
    requires Flushable(p)
    ensures u.startTimeMs == p.words[0].startTimeMs && u.endTimeMs == p.words[|p.words| - 1].endTimeMs
    ensures u.text == Join(p.raw) && u.normalizedText == Some(Join(p.normalized)) && u.words == Some(list)
  {
    Utterance(Join(p.raw), p.words[0].startTimeMs, p.words[|p.words| - 1].endTimeMs, Some(Join(p.normalized)), Some(list))
  }

  /** A channel's utterances correspond one to one, in order, to its flushed snapshots. */
  predicate Mirrors(us: seq<Utterance>, fs: seq<Pending>, list: WordList) {
    |us| == |fs| && forall k :: 0 <= k < |us| ==> Flushable(fs[k]) && us[k] == UtteranceOf(fs[k], list)
  }

  /**
    The accumulators of channel `t` agree with the channel state `c`. `contents` gives what
    each word list holds at this point (see `Holds`), so this predicate reads no heap.
  */
  predicate Tracks(raw: map<string, seq<string>>, normalized: map<string, seq<string>>,
                   lists: map<string, WordList>, contents: map<string, seq<Word>>,
                   utterances: map<string, seq<Utterance>>, t: string, c: Channel)
  {
    && (if t in raw then raw[t] else []) == c.pending.raw
    && (if t in normalized then normalized[t] else []) == c.pending.normalized
    && (t in contents ==> contents[t] == c.pending.words)
    && (t !in contents ==> c.pending.words == [] && c.flushed == [])
    && (t in utterances ==> t in lists && Mirrors(utterances[t], c.flushed, lists[t]))
    && (t !in utterances ==> c.flushed == [])
  }

  /** The accumulators agree with the stream state `s` on every channel. */
  ghost predicate TracksAll(raw: map<string, seq<string>>, normalized: map<string, seq<string>>,
                      lists: map<string, WordList>, contents: map<string, seq<Word>>,
                      utterances: map<string, seq<Utterance>>, s: map<string, Channel>)
  {
    forall t :: Tracks(raw, normalized, lists, contents, utterances, t, Lookup(s, t))
  }

  /** Each channel's word list currently holds `contents` of that channel. */
  ghost predicate Holds(lists: map<string, WordList>, contents: map<string, seq<Word>>)
    reads lists.Values
  {
    lists.Keys == contents.Keys && forall t :: t in lists ==> lists[t].items == contents[t]
  }

  /** `for word in alternative.words: words[tag].append(Word(...))`. */
  method AppendWords(list: WordList, ws: seq<Word>)
    modifies list
    ensures list.items == old(list.items) + ws
  {
    var j := 0;
    while j < |ws|
      invariant 0 <= j <= |ws|
      invariant list.items == old(list.items) + ws[..j]
    {
      list.items := list.items + [Word(ws[j].word, ws[j].startTimeMs, ws[j].endTimeMs)];
      j := j + 1;
    }
    assert ws[..j] == ws;
  }

  /** A `final` event on `tag` (stt/yandex/model.py, the `HasField('final')` branch). */
  method ConsumeFinal(tag: string, alternatives: seq<Alternative>,
                      raw: map<string, seq<string>>, normalized: map<string, seq<string>>,
                      lists: map<string, WordList>, ghost contents: map<string, seq<Word>>,
                      utterances: map<string, seq<Utterance>>, ghost s: map<string, Channel>)
    returns (raw': map<string, seq<string>>, lists': map<string, WordList>, ghost contents': map<string, seq<Word>>)
    requires DistinctLists(lists) && Holds(lists, contents)
    requires TracksAll(raw, normalized, lists, contents, utterances, s)
    modifies lists.Values
    ensures DistinctLists(lists') && Holds(lists', contents')
    ensures forall l :: l in lists'.Values ==> l in lists.Values || fresh(l)
    ensures TracksAll(raw', normalized, lists', contents', utterances, s[tag := Step(Lookup(s, tag), Final(alternatives))])
  {
    raw', lists', contents' := raw, lists, contents;
    if |alternatives| != 0 {
      raw' := raw[tag := (if tag in raw then raw[tag] else []) + [alternatives[0].text]];
      var list: WordList;
      if tag in lists {
        list := lists[tag];
      } else {
        list := new WordList();
        lists' := lists[tag := list];
      }
      AppendWords(list, alternatives[0].words);
      contents' := contents[tag := (if tag in contents then contents[tag] else []) + alternatives[0].words];
    }
    FinalKeepsTracking(tag, alternatives, raw, raw', normalized, lists, lists', contents, contents', utterances, s);
  }

  /** The bookkeeping half of `ConsumeFinal`: the new accumulators track the new state. */
  lemma FinalKeepsTracking(tag: string, alternatives: seq<Alternative>,
                           raw: map<string, seq<string>>, raw': map<string, seq<string>>,
                           normalized: map<string, seq<string>>,
                           lists: map<string, WordList>, lists': map<string, WordList>,
                           contents: map<string, seq<Word>>, contents': map<string, seq<Word>>,
                           utterances: map<string, seq<Utterance>>, s: map<string, Channel>)
    requires TracksAll(raw, normalized, lists, contents, utterances, s)
    requires |alternatives| == 0 ==> raw' == raw && lists' == lists && contents' == contents
    requires |alternatives| != 0 ==>
      && raw' == raw[tag := (if tag in raw then raw[tag] else []) + [alternatives[0].text]]
      && (tag in lists ==> lists' == lists)
      && (forall t :: t in lists && t != tag ==> t in lists' && lists'[t] == lists[t])
      && contents' == contents[tag := (if tag in contents then contents[tag] else []) + alternatives[0].words]
    ensures TracksAll(raw', normalized, lists', contents', utterances, s[tag := Step(Lookup(s, tag), Final(alternatives))])
  {
    ghost var s' := s[tag := Step(Lookup(s, tag), Final(alternatives))];
    forall t
      ensures Tracks(raw', normalized, lists', contents', utterances, t, Lookup(s', t))
    {
      assert Tracks(raw, normalized, lists, contents, utterances, t, Lookup(s, t));
    }
  }

  /** A `final_refinement` event on `tag` (the `HasField('final_refinement')` branch). */
  method ConsumeRefinement(tag: string, normalizedAlternatives: seq<string>,
                           raw: map<string, seq<string>>, normalized: map<string, seq<string>>,
                           lists: map<string, WordList>, ghost contents: map<string, seq<Word>>,
                           utterances: map<string, seq<Utterance>>, ghost s: map<string, Channel>)
    returns (normalized': map<string, seq<string>>)
    requires TracksAll(raw, normalized, lists, contents, utterances, s)
    ensures TracksAll(raw, normalized', lists, contents, utterances, s[tag := Step(Lookup(s, tag), FinalRefinement(normalizedAlternatives))])
  {
    normalized' := normalized;
    if |normalizedAlternatives| != 0 {
      normalized' := normalized[tag := (if tag in normalized then normalized[tag] else []) + [normalizedAlternatives[0]]];
    }
    ghost var s' := s[tag := Step(Lookup(s, tag), FinalRefinement(normalizedAlternatives))];
    forall t
      ensures Tracks(raw, normalized', lists, contents, utterances, t, Lookup(s', t))
    {
      assert Tracks(raw, normalized, lists, contents, utterances, t, Lookup(s, t));
      if t != tag {
        assert Lookup(s', t) == Lookup(s, t);
      }
    }
  }

  /**
    An `eou_update` event on `tag` (the `HasField('eou_update')` branch): with pending words,
    record an utterance that holds the channel's word list itself, then clear the three lists.
  */
  method ConsumeEndOfUtterance(tag: string,
                               raw: map<string, seq<string>>, normalized: map<string, seq<string>>,
                               lists: map<string, WordList>, ghost contents: map<string, seq<Word>>,
                               utterances: map<string, seq<Utterance>>, ghost s: map<string, Channel>)
    returns (raw': map<string, seq<string>>, normalized': map<string, seq<string>>,
             ghost contents': map<string, seq<Word>>, utterances': map<string, seq<Utterance>>)
    requires DistinctLists(lists) && Holds(lists, contents)
    requires TracksAll(raw, normalized, lists, contents, utterances, s)
    modifies lists.Values
    ensures Holds(lists, contents')
    ensures TracksAll(raw', normalized', lists, contents', utterances', s[tag := Step(Lookup(s, tag), EndOfUtterance)])
  {
    raw', normalized', contents', utterances' := raw, normalized, contents, utterances;
    if tag in lists && |lists[tag].items| > 0 {
      var list := lists[tag];
      var u := Utterance(Join(if tag in raw then raw[tag] else []),
                         list.items[0].startTimeMs, list.items[|list.items| - 1].endTimeMs,
                         Some(Join(if tag in normalized then normalized[tag] else [])),
                         Some(list));
      utterances' := utterances[tag := (if tag in utterances then utterances[tag] else []) + [u]];
      raw' := raw[tag := []];
      normalized' := normalized[tag := []];
      list.items := [];
      contents' := contents[tag := []];
    }
    EndOfUtteranceKeepsTracking(tag, raw, raw', normalized, normalized', lists, contents, contents', utterances, utterances', s);
  }

  /** The bookkeeping half of `ConsumeEndOfUtterance`. */
  lemma EndOfUtteranceKeepsTracking(tag: string,
                                    raw: map<string, seq<string>>, raw': map<string, seq<string>>,
                                    normalized: map<string, seq<string>>, normalized': map<string, seq<string>>,
                                    lists: map<string, WordList>,
                                    contents: map<string, seq<Word>>, contents': map<string, seq<Word>>,
                                    utterances: map<string, seq<Utterance>>, utterances': map<string, seq<Utterance>>,
                                    s: map<string, Channel>)
    requires TracksAll(raw, normalized, lists, contents, utterances, s)
    requires lists.Keys == contents.Keys
    requires !(tag in contents && |contents[tag]| > 0) ==>
      raw' == raw && normalized' == normalized && contents' == contents && utterances' == utterances
    requires tag in contents && |contents[tag]| > 0 ==>
      && raw' == raw[tag := []] && normalized' == normalized[tag := []] && contents' == contents[tag := []]
      && utterances' == utterances[tag := (if tag in utterances then utterances[tag] else []) +
           [Utterance(Join(if tag in raw then raw[tag] else []),
                      contents[tag][0].startTimeMs, contents[tag][|contents[tag]| - 1].endTimeMs,
                      Some(Join(if tag in normalized then normalized[tag] else [])),
                      Some(lists[tag]))]]
    ensures TracksAll(raw', normalized', lists, contents', utterances', s[tag := Step(Lookup(s, tag), EndOfUtterance)])
  {
    ghost var c := Lookup(s, tag);
    assert Tracks(raw, normalized, lists, contents, utterances, tag, c);
    ghost var s' := s[tag := Step(c, EndOfUtterance)];
    if tag in contents && |contents[tag]| > 0 {
      FlushTracksChannel(tag, raw, normalized, lists, contents, utterances, c);
      forall t
        ensures Tracks(raw', normalized', lists, contents', utterances', t, Lookup(s', t))
      {
        if t != tag {
          assert Tracks(raw, normalized, lists, contents, utterances, t, Lookup(s, t));
        }
      }
    } else {
      assert Step(c, EndOfUtterance) == c;
      forall t
        ensures Tracks(raw', normalized', lists, contents', utterances', t, Lookup(s', t))
      {
        assert Tracks(raw, normalized, lists, contents, utterances, t, Lookup(s, t));
      }
    }
  }

  /** On the flushed channel itself, the cleared accumulators and the new utterance track the flush. */
  lemma FlushTracksChannel(tag: string, raw: map<string, seq<string>>, normalized: map<string, seq<string>>,
                           lists: map<string, WordList>, contents: map<string, seq<Word>>,
                           utterances: map<string, seq<Utterance>>, c: Channel)
    requires Tracks(raw, normalized, lists, contents, utterances, tag, c)
    requires tag in contents && |contents[tag]| > 0 && tag in lists
    ensures Tracks(raw[tag := []], normalized[tag := []], lists, contents[tag := []],
                   utterances[tag := (if tag in utterances then utterances[tag] else []) +
                     [Utterance(Join(if tag in raw then raw[tag] else []),
                                contents[tag][0].startTimeMs, contents[tag][|contents[tag]| - 1].endTimeMs,
                                Some(Join(if tag in normalized then normalized[tag] else [])),
                                Some(lists[tag]))]],
                   tag, Step(c, EndOfUtterance))
  {
    var us := if tag in utterances then utterances[tag] else [];
    var u := UtteranceOf(c.pending, lists[tag]);
    assert Mirrors(us + [u], c.flushed + [c.pending], lists[tag]) by {
      assert Mirrors(us, c.flushed, lists[tag]);
    }
  }

  /**
    The `for r in it` loop. Afterwards every channel's word list holds that channel's
    pending words and its utterances mirror its flushed snapshots, all referring to that
    one list.
  */
  method Aggregate(responses: seq<Response>) returns (utterances: map<string, seq<Utterance>>, lists: map<string, WordList>)
    ensures DistinctLists(lists)
    ensures forall t :: t in lists ==> lists[t].items == Lookup(Run(responses), t).pending.words
    ensures forall t :: t !in lists ==> Lookup(Run(responses), t).pending.words == []
    ensures forall t :: t in utterances ==> t in lists && Mirrors(utterances[t], Lookup(Run(responses), t).flushed, lists[t])
    ensures forall t :: t !in utterances ==> Lookup(Run(responses), t).flushed == []
  {
    var raw: map<string, seq<string>> := map[];
    var normalized: map<string, seq<string>> := map[];
    ghost var contents: map<string, seq<Word>> := map[];
    utterances, lists := map[], map[];
    var i := 0;
    while i < |responses|
      invariant 0 <= i <= |responses|
      invariant forall l :: l in lists.Values ==> fresh(l)
      invariant DistinctLists(lists) && Holds(lists, contents)
      invariant TracksAll(raw, normalized, lists, contents, utterances, Run(responses[..i]))
    {
      var r := responses[i];
      var tag := ChannelOf(r);
      ghost var s := Run(responses[..i]);
      assert responses[..i + 1][..i] == responses[..i];
      match r.payload {
        case Final(alternatives) =>
          raw, lists, contents := ConsumeFinal(tag, alternatives, raw, normalized, lists, contents, utterances, s);
        case FinalRefinement(normalizedAlternatives) =>
          normalized := ConsumeRefinement(tag, normalizedAlternatives, raw, normalized, lists, contents, utterances, s);
        case EndOfUtterance =>
          raw, normalized, contents, utterances := ConsumeEndOfUtterance(tag, raw, normalized, lists, contents, utterances, s);
      }
      i := i + 1;
    }
    assert responses[..i] == responses;
    forall t
      ensures Tracks(raw, normalized, lists, contents, utterances, t, Lookup(Run(responses), t))
    {
    }
  }

  /** `[phrase.text for phrase in us]`. */
  function TextsOf(us: seq<Utterance>): (r: seq<string>)
    ensures |r| == |us| && forall k :: 0 <= k < |us| ==> r[k] == us[k].text
  {
    seq(|us|, k requires 0 <= k < |us| => us[k].text)
  }

  /** `[phrase.normalized_text for phrase in us]`, for utterances that all have one. */
  function NormalizedOf(us: seq<Utterance>): (r: seq<string>)
    requires forall k :: 0 <= k < |us| ==> us[k].normalizedText.Some?
    ensures |r| == |us| && forall k :: 0 <= k < |us| ==> Some(r[k]) == us[k].normalizedText
  {
    seq(|us|, k requires 0 <= k < |us| => us[k].normalizedText.value)
  }

  /** What an utterance is meant to say for each flushed snapshot: its joined raw fragments. */
  function SnapshotTexts(fs: seq<Pending>): (r: seq<string>)
    ensures |r| == |fs| && forall k :: 0 <= k < |fs| ==> r[k] == Join(fs[k].raw)
  {
    seq(|fs|, k requires 0 <= k < |fs| => Join(fs[k].raw))
  }

  /** The joined normalised fragments of each flushed snapshot. */
  function SnapshotNormalized(fs: seq<Pending>): (r: seq<string>)
    ensures |r| == |fs| && forall k :: 0 <= k < |fs| ==> r[k] == Join(fs[k].normalized)
  {
    seq(|fs|, k requires 0 <= k < |fs| => Join(fs[k].normalized))
  }

  /** Every utterance has a normalised text (the aggregation always passes a string). */
  predicate AllNormalized(us: seq<Utterance>) {
    forall k :: 0 <= k < |us| ==> us[k].normalizedText.Some?
  }

  /** Every utterance holds the word list `list` itself. */
  predicate AllHold(us: seq<Utterance>, list: WordList) {
    forall k :: 0 <= k < |us| ==> us[k].words == Some(list)
  }

  /** The utterances recorded for `tag` (`utterances[channel_tag]` of a `defaultdict(list)`). */
  function UtterancesAt(utterances: map<string, seq<Utterance>>, tag: string): seq<Utterance> {
    if tag in utterances then utterances[tag] else []
  }

  /**
    The `Transcription` the final loop builds for `tag` from its utterances `us`, given the
    contents `items` of the one word list they all hold.
  */
  function ChannelTranscription(tag: string, us: seq<Utterance>, items: seq<Word>): (tr: Transcription)
    requires AllNormalized(us)
    ensures tr.channel == Some(tag) && tr.utterances == Some(us)
    ensures tr.rawText == Join(TextsOf(us)) && tr.normalizedText == Some(Join(NormalizedOf(us)))
    ensures tr.words == Some(Repeat(items, |us|))
  {
    Transcription(Join(TextsOf(us)), Some(Join(NormalizedOf(us))), Some(Repeat(items, |us|)), Some(us), Some(tag))
  }

  /**
    The `for channel in range(audio.channels)` loop: one transcription per audio channel,
    tagged `str(channel)`. Its words are the sum of its utterances' word lists as they
    stand now, that is, the channel's one list repeated once per utterance.
  */
  method Finalize(channels: nat, utterances: map<string, seq<Utterance>>, lists: map<string, WordList>)
    returns (ts: seq<Transcription>)
    requires forall t :: AllNormalized(UtterancesAt(utterances, t))
    requires forall t :: t in utterances ==> t in lists && AllHold(utterances[t], lists[t])
    ensures |ts| == channels
    ensures forall c :: 0 <= c < channels ==>
      ts[c] == ChannelTranscription(DecimalString(c), UtterancesAt(utterances, DecimalString(c)),
                                    if DecimalString(c) in lists then lists[DecimalString(c)].items else [])
  {
    ts := [];
    var c := 0;
    while c < channels
      invariant 0 <= c <= channels && |ts| == c
      invariant forall d :: 0 <= d < c ==>
        ts[d] == ChannelTranscription(DecimalString(d), UtterancesAt(utterances, DecimalString(d)),
                                      if DecimalString(d) in lists then lists[DecimalString(d)].items else [])
    {
      var tag := DecimalString(c);
      var us := UtterancesAt(utterances, tag);
      var words: seq<Word> := [];
      var j := 0;
      while j < |us|
        invariant 0 <= j <= |us|
        invariant us != [] ==> tag in lists
        invariant words == if tag in lists then Repeat(lists[tag].items, j) else []
      {
        words := words + us[j].words.value.items;
        j := j + 1;
      }
      ts := ts + [Transcription(Join(TextsOf(us)), Some(Join(NormalizedOf(us))), Some(words), Some(us), Some(tag))];
      c := c + 1;
    }
  }

  /** Utterances that mirror snapshots say what the snapshots say, and all hold `list`. */
  lemma MirroredTexts(us: seq<Utterance>, fs: seq<Pending>, list: WordList)
    requires Mirrors(us, fs, list)
    ensures AllNormalized(us) && AllHold(us, list)
    ensures TextsOf(us) == SnapshotTexts(fs) && NormalizedOf(us) == SnapshotNormalized(fs)
  {
  }

  /**
    What the source reports for channel `tag` in state `ch`: one utterance per flushed
    snapshot, the texts of those snapshots, and for words the channel's pending words once
    per utterance (every utterance shares the channel's list, emptied or refilled since).
  */
  predicate Reports(tr: Transcription, tag: string, ch: Channel, lists: map<string, WordList>) {
    && tr.channel == Some(tag)
    && tr.rawText == Join(SnapshotTexts(ch.flushed))
    && tr.normalizedText == Some(Join(SnapshotNormalized(ch.flushed)))
    && tr.words == Some(Repeat(ch.pending.words, |ch.flushed|))
    && tr.utterances.Some?
    && (if ch.flushed == [] then tr.utterances.value == []
        else tag in lists && Mirrors(tr.utterances.value, ch.flushed, lists[tag]))
  }

  /**
    The response loop followed by the per-channel loop of `_transcribe_impl`, stated against
    the stream semantics `Run`. `lists` are the per-channel word lists the utterances hold;
    after the call each holds its channel's words pending at the end of the stream.
  */
  method TranscribeStream(channels: nat, responses: seq<Response>)
    returns (ts: seq<Transcription>, lists: map<string, WordList>)
    ensures |ts| == channels
    ensures forall t :: t in lists ==> lists[t].items == Lookup(Run(responses), t).pending.words
    ensures forall c :: 0 <= c < channels ==>
      Reports(ts[c], DecimalString(c), Lookup(Run(responses), DecimalString(c)), lists)
  {
    var utterances;
    utterances, lists := Aggregate(responses);
    forall t
      ensures AllNormalized(UtterancesAt(utterances, t))
      ensures t in utterances ==> t in lists && AllHold(utterances[t], lists[t])
    {
      if t in utterances {
        MirroredTexts(utterances[t], Lookup(Run(responses), t).flushed, lists[t]);
      }
    }
    ts := Finalize(channels, utterances, lists);
    forall c | 0 <= c < channels
      ensures Reports(ts[c], DecimalString(c), Lookup(Run(responses), DecimalString(c)), lists)
    {
      var tag := DecimalString(c);
      var ch := Lookup(Run(responses), tag);
      if tag in utterances {
        MirroredTexts(utterances[tag], ch.flushed, lists[tag]);
      }
    }
  }

  /**
    A channel with nothing flushed, silent or with words that never reached an end of
    utterance, still gets lists rather than `None`: its transcription has words and
    utterances, both empty, and empty texts.
  */
  lemma NothingFlushedReportsEmptyLists(tr: Transcription, tag: string, ch: Channel, lists: map<string, WordList>)
    requires Reports(tr, tag, ch, lists) && ch.flushed == []
    ensures tr.HasWords() && tr.HasUtterances()
    ensures tr.words == Some([]) && tr.utterances == Some([])
    ensures tr.rawText == "" && tr.normalizedText == Some("")
  {
  }

  /**
    The words a channel's transcription is evidently meant to hold: each utterance's words
    as they were when it was flushed, end to end. With what is still pending they are
    exactly the channel's final words, in arrival order.
  */
  function IntendedWords(rs: seq<Response>, t: string): (ws: seq<Word>)
    ensures ws + Lookup(Run(rs), t).pending.words == FinalWords(PayloadsOf(rs, t))
  {
    StreamConservation(rs, t);
    FlushedWords(Lookup(Run(rs), t).flushed)
  }

  /**
    When nothing is pending at the end of the stream (the usual case: the last event of a
    channel closes its utterance), the transcription as written reports no words at all,
    while every final word of the channel is meant to be reported.
  */
  lemma NothingPendingReportsNoWords(rs: seq<Response>, t: string, tr: Transcription, lists: map<string, WordList>)
    requires Lookup(Run(rs), t).pending.words == []
    requires Reports(tr, t, Lookup(Run(rs), t), lists)
    ensures tr.words == Some([])
    ensures IntendedWords(rs, t) == FinalWords(PayloadsOf(rs, t))
  {
    var ws := IntendedWords(rs, t);
    assert ws + [] == ws;
  }

  /**
    One word recognised, then the end of the utterance, on channel "0". The utterance and
    the transcription both come back without the word, since the list they hold was
    cleared by the very event that recorded the utterance.
  */
  method SharedWordListWitness() returns (reported: seq<Word>, utteranceWords: seq<Word>, intended: seq<Word>)
    ensures intended == [Word("hi", 0, 500)]
    ensures reported == [] && utteranceWords == []
  {
    var rs := [Response("", Final([Alternative("hi", [Word("hi", 0, 500)])])), Response("", EndOfUtterance)];
    var r0, r1 := rs[0], rs[1];
    assert Lookup(Run([]), "0") == Unseen;
    OneMoreResponse([], r0, "0");
    var w := Word("hi", 0, 500);
    assert Step(Unseen, r0.payload) == Channel(Pending(["hi"], [], [w]), []) by {
      assert [] + ["hi"] == ["hi"] && [] + [w] == [w];
    }
    assert [] + [r0] == [r0] && [r0] + [r1] == rs;
    OneMoreResponse([r0], r1, "0");
    var ch := Lookup(Run(rs), "0");
    assert ch == Channel(NothingPending, [Pending(["hi"], [], [Word("hi", 0, 500)])]);
    var ts, lists := TranscribeStream(1, rs);
    assert DecimalString(0) == "0";
    reported := ts[0].words.value;
    utteranceWords := ts[0].utterances.value[0].words.value.items;
    intended := IntendedWords(rs, "0");
  }
}
