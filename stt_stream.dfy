/**
  The recognition response stream of stt/yandex/model.py and what it means per channel.

  `Run` gives, for every channel tag, the pending fragments and words and the sequence of
  flushed snapshots, one per utterance. A snapshot records the fragments and words that
  were pending when the end-of-utterance event arrived; this is what an utterance is meant
  to hold. The imperative aggregation in module SttAggregator is proved against `Run`, including
  where it departs from it (its utterances share the channel's pending word list).
*/
module SttStream {
  import opened Seqs
  import opened SttTranscription

  /** One recognition hypothesis: its text and its timed words. */
  datatype Alternative = Alternative(text: string, words: seq<Word>)

  /** The three kinds of recognition events the aggregator reacts to. */
  datatype Payload =
    | Final(alternatives: seq<Alternative>)
    | FinalRefinement(normalizedAlternatives: seq<string>)
    | EndOfUtterance

  /** A streaming response: the channel tag as sent ("" when absent) and its event. */
  datatype Response = Response(channelTag: string, payload: Payload)

  /** `r.channel_tag or '0'`: a missing (empty) tag means channel "0". */
  function ChannelOf(r: Response): (t: string)
    ensures t != ""
    ensures r.channelTag == "" ==> t == "0"
    ensures r.channelTag != "" ==> t == r.channelTag
  {
    if r.channelTag == "" then "0" else r.channelTag
  }

  /** The three per-channel pending lists: raw fragments, normalised fragments, words. */
  datatype Pending = Pending(raw: seq<string>, normalized: seq<string>, words: seq<Word>)

  const NothingPending := Pending([], [], [])

  /** A channel's state: what is pending and the snapshots flushed so far, oldest first. */
  datatype Channel = Channel(pending: Pending, flushed: seq<Pending>)

  /** The state of a channel no event has touched. */
  const Unseen := Channel(NothingPending, [])

  /**
    The effect of one event on its own channel. Snapshots are only ever added, one at a
    time and behind the earlier ones, and exactly when an end of utterance finds words
    pending.
  */
  function Step(c: Channel, p: Payload): (c': Channel)
    ensures |c.flushed| <= |c'.flushed| <= |c.flushed| + 1
    ensures c'.flushed[..|c.flushed|] == c.flushed
    ensures |c'.flushed| == |c.flushed| + 1 <==> p.EndOfUtterance? && |c.pending.words| > 0
  {
    match p
    case Final(alternatives) =>
      if |alternatives| == 0 then c
      else c.(pending := c.pending.(raw := c.pending.raw + [alternatives[0].text],
                                    words := c.pending.words + alternatives[0].words))
    case FinalRefinement(normalizedAlternatives) =>
      if |normalizedAlternatives| == 0 then c
      else c.(pending := c.pending.(normalized := c.pending.normalized + [normalizedAlternatives[0]]))
    case EndOfUtterance =>
      if |c.pending.words| == 0 then c
      else Channel(NothingPending, c.flushed + [c.pending])
  }

  /** A `defaultdict` read: an absent channel is unseen. */
  function Lookup(s: map<string, Channel>, t: string): Channel
  {
    if t in s then s[t] else Unseen
  }

  /** The per-channel state after the responses, processed in arrival order. */
  function Run(rs: seq<Response>): map<string, Channel>
  {
    if |rs| == 0 then map[]
    else
      var s := Run(rs[..|rs| - 1]);
      var r := rs[|rs| - 1];
      s[ChannelOf(r) := Step(Lookup(s, ChannelOf(r)), r.payload)]
  }

  /**
    The state has an entry for exactly the channels some response names; every other channel
    reads as unseen through `Lookup`, as a `defaultdict` read does.
  */
  lemma {:induction false} RunChannels(rs: seq<Response>)
    ensures Run(rs).Keys == set i | 0 <= i < |rs| :: ChannelOf(rs[i])
  {
    if |rs| > 0 {
      var init := rs[..|rs| - 1];
      RunChannels(init);
      assert forall i :: 0 <= i < |init| ==> init[i] == rs[i];
      assert (set i | 0 <= i < |rs| :: ChannelOf(rs[i]))
          == (set i | 0 <= i < |init| :: ChannelOf(init[i])) + {ChannelOf(rs[|rs| - 1])};
    }
  }

  // ---------------------------------------------------------------------------
  // One more response

  /** An event changes its own channel by `Step` and leaves every other channel as it was. */
  lemma OneMoreResponse(rs: seq<Response>, r: Response, t: string)
    ensures Lookup(Run(rs + [r]), ChannelOf(r)) == Step(Lookup(Run(rs), ChannelOf(r)), r.payload)
    ensures t != ChannelOf(r) ==> Lookup(Run(rs + [r]), t) == Lookup(Run(rs), t)
  {
    assert (rs + [r])[..|rs|] == rs;
  }

  /**
    A final result with an alternative appends the first alternative's text to the raw
    fragments and its words, in order, to the pending words of its channel; with no
    alternative it changes nothing.
  */
  lemma FinalResultAppends(rs: seq<Response>, tag: string, alternatives: seq<Alternative>)
    ensures var before, after := Lookup(Run(rs), ChannelOf(Response(tag, Final(alternatives)))),
                                 Lookup(Run(rs + [Response(tag, Final(alternatives))]), ChannelOf(Response(tag, Final(alternatives))));
      if |alternatives| == 0 then after == before
      else after.pending == Pending(before.pending.raw + [alternatives[0].text], before.pending.normalized,
                                    before.pending.words + alternatives[0].words)
           && after.flushed == before.flushed
  {
    OneMoreResponse(rs, Response(tag, Final(alternatives)), "");
  }

  /** A refinement with an alternative appends its first normalised text; without one nothing changes. */
  lemma RefinementAppends(rs: seq<Response>, tag: string, normalized: seq<string>)
    ensures var before, after := Lookup(Run(rs), ChannelOf(Response(tag, FinalRefinement(normalized)))),
                                 Lookup(Run(rs + [Response(tag, FinalRefinement(normalized))]), ChannelOf(Response(tag, FinalRefinement(normalized))));
      if |normalized| == 0 then after == before
      else after.pending == before.pending.(normalized := before.pending.normalized + [normalized[0]])
           && after.flushed == before.flushed
  {
    OneMoreResponse(rs, Response(tag, FinalRefinement(normalized)), "");
  }

  /**
    End of utterance with pending words flushes exactly one snapshot of the pending lists
    and leaves all three empty; with no pending words it changes nothing, so pending text
    fragments wait for the next flush.
  */
  lemma EndOfUtteranceFlushes(rs: seq<Response>, tag: string)
    ensures var before, after := Lookup(Run(rs), ChannelOf(Response(tag, EndOfUtterance))),
                                 Lookup(Run(rs + [Response(tag, EndOfUtterance)]), ChannelOf(Response(tag, EndOfUtterance)));
      if |before.pending.words| == 0 then after == before
      else after.pending == NothingPending && after.flushed == before.flushed + [before.pending]
  {
    OneMoreResponse(rs, Response(tag, EndOfUtterance), "");
  }

  // ---------------------------------------------------------------------------
  // Channel isolation

  /** The payloads addressed to channel `t`, in arrival order. */
  function PayloadsOf(rs: seq<Response>, t: string): seq<Payload>
  {
    if |rs| == 0 then []
    else PayloadsOf(rs[..|rs| - 1], t) + (if ChannelOf(rs[|rs| - 1]) == t then [rs[|rs| - 1].payload] else [])
  }

  /** A channel's state after its own payloads alone. */
  function Replay(ps: seq<Payload>): Channel
  {
    if |ps| == 0 then Unseen else Step(Replay(ps[..|ps| - 1]), ps[|ps| - 1])
  }

  /** A channel's state depends on its own events only: interleaving other channels changes nothing. */
  lemma {:induction false} ChannelIsolation(rs: seq<Response>, t: string)
    ensures Lookup(Run(rs), t) == Replay(PayloadsOf(rs, t))
  {
    if |rs| > 0 {
      var init, r := rs[..|rs| - 1], rs[|rs| - 1];
      assert rs == init + [r];
      ChannelIsolation(init, t);
      OneMoreResponse(init, r, t);
      var ps := PayloadsOf(init, t);
      if ChannelOf(r) == t {
        assert PayloadsOf(rs, t) == ps + [r.payload];
        assert (ps + [r.payload])[..|ps|] == ps;
      } else {
        assert PayloadsOf(rs, t) == ps;
      }
    }
  }

  /** A channel no response names is still unseen: empty pending lists, nothing flushed. */
  lemma SilentChannelIsUnseen(rs: seq<Response>, t: string)
    requires forall k :: 0 <= k < |rs| ==> ChannelOf(rs[k]) != t
    ensures Lookup(Run(rs), t) == Unseen
  {
    RunChannels(rs);
  }

  // ---------------------------------------------------------------------------
  // Flushed snapshots

  /** Only a snapshot with words is ever flushed, so its first and last word exist. */
  predicate Flushable(p: Pending) {
    |p.words| > 0
  }

  /** Every flushed snapshot has at least one word. */
  lemma {:induction false} FlushedHaveWords(ps: seq<Payload>)
    ensures forall k :: 0 <= k < |Replay(ps).flushed| ==> Flushable(Replay(ps).flushed[k])
  {
    if |ps| > 0 {
      FlushedHaveWords(ps[..|ps| - 1]);
    }
  }

  /** The same, for every channel of a whole stream. */
  lemma StreamFlushedHaveWords(rs: seq<Response>, t: string)
    ensures forall k :: 0 <= k < |Lookup(Run(rs), t).flushed| ==> Flushable(Lookup(Run(rs), t).flushed[k])
  {
    ChannelIsolation(rs, t);
    FlushedHaveWords(PayloadsOf(rs, t));
  }

  /** The raw fragments of the flushed snapshots, end to end. */
  function FlushedRaw(fs: seq<Pending>): seq<string>
  {
    if |fs| == 0 then [] else FlushedRaw(fs[..|fs| - 1]) + fs[|fs| - 1].raw
  }

  /** The normalised fragments of the flushed snapshots, end to end. */
  function FlushedNormalized(fs: seq<Pending>): seq<string>
  {
    if |fs| == 0 then [] else FlushedNormalized(fs[..|fs| - 1]) + fs[|fs| - 1].normalized
  }

  /** The words of the flushed snapshots, end to end: what a channel's transcription is meant to hold. */
  function FlushedWords(fs: seq<Pending>): seq<Word>
  {
    if |fs| == 0 then [] else FlushedWords(fs[..|fs| - 1]) + fs[|fs| - 1].words
  }

  /** The text a final result contributes: its first alternative's text, if it has one. */
  function FinalTextOf(p: Payload): seq<string>
  {
    match p
    case Final(alts) => if |alts| == 0 then [] else [alts[0].text]
    case _ => []
  }

  /** The words a final result contributes: its first alternative's words. */
  function FinalWordsOf(p: Payload): seq<Word>
  {
    match p
    case Final(alts) => if |alts| == 0 then [] else alts[0].words
    case _ => []
  }

  /** The normalised text a refinement contributes: its first alternative, if it has one. */
  function RefinedTextOf(p: Payload): seq<string>
  {
    match p
    case FinalRefinement(alts) => if |alts| == 0 then [] else [alts[0]]
    case _ => []
  }

  /** The first-alternative texts of the final results with an alternative. */
  function FinalTexts(ps: seq<Payload>): seq<string>
  {
    if |ps| == 0 then [] else FinalTexts(ps[..|ps| - 1]) + FinalTextOf(ps[|ps| - 1])
  }

  /** The first-alternative words of the final results, in arrival order. */
  function FinalWords(ps: seq<Payload>): seq<Word>
  {
    if |ps| == 0 then [] else FinalWords(ps[..|ps| - 1]) + FinalWordsOf(ps[|ps| - 1])
  }

  /** The first normalised texts of the refinements with an alternative. */
  function RefinedTexts(ps: seq<Payload>): seq<string>
  {
    if |ps| == 0 then [] else RefinedTexts(ps[..|ps| - 1]) + RefinedTextOf(ps[|ps| - 1])
  }

  /**
    One event moves nothing between flushed and pending out of order and adds exactly what
    it contributes: a flush moves the pending lists behind the flushed ones.
  */
  lemma StepConserves(c: Channel, p: Payload)
    ensures FlushedRaw(Step(c, p).flushed) + Step(c, p).pending.raw
            == FlushedRaw(c.flushed) + c.pending.raw + FinalTextOf(p)
    ensures FlushedNormalized(Step(c, p).flushed) + Step(c, p).pending.normalized
            == FlushedNormalized(c.flushed) + c.pending.normalized + RefinedTextOf(p)
    ensures FlushedWords(Step(c, p).flushed) + Step(c, p).pending.words
            == FlushedWords(c.flushed) + c.pending.words + FinalWordsOf(p)
  {
    if p.EndOfUtterance? && |c.pending.words| > 0 {
      var fs := c.flushed + [c.pending];
      assert fs[..|fs| - 1] == c.flushed;
    }
  }

  /**
    Nothing is lost or repeated: the flushed snapshots followed by what is still pending
    hold exactly the channel's final texts, refinements and words, in arrival order.
  */
  lemma {:induction false} Conservation(ps: seq<Payload>)
    ensures FlushedRaw(Replay(ps).flushed) + Replay(ps).pending.raw == FinalTexts(ps)
    ensures FlushedNormalized(Replay(ps).flushed) + Replay(ps).pending.normalized == RefinedTexts(ps)
    ensures FlushedWords(Replay(ps).flushed) + Replay(ps).pending.words == FinalWords(ps)
  {
    if |ps| > 0 {
      var init := ps[..|ps| - 1];
      Conservation(init);
      StepConserves(Replay(init), ps[|ps| - 1]);
    }
  }

  /**
    For a whole stream: the words of a channel's utterances, as intended, are exactly the
    words of its final results except those still pending when the stream ended.
  */
  lemma StreamConservation(rs: seq<Response>, t: string)
    ensures FlushedWords(Lookup(Run(rs), t).flushed) + Lookup(Run(rs), t).pending.words
            == FinalWords(PayloadsOf(rs, t))
    ensures FlushedRaw(Lookup(Run(rs), t).flushed) + Lookup(Run(rs), t).pending.raw
            == FinalTexts(PayloadsOf(rs, t))
  {
    ChannelIsolation(rs, t);
    Conservation(PayloadsOf(rs, t));
  }
}
