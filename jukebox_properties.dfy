/**
 * What the jukebox's loop promises over many cycles: a card that is briefly
 * not seen keeps playing, a card that stays away for the removal threshold
 * pauses playback exactly once, a new card takes over at once, the volume
 * is sent only when it changes; and example sessions: a card laid down,
 * read with one miss in between, taken away, and replaced by a card with no
 * track.
 */
module JukeboxProperties {
  import opened Arduino
  import opened RfidReader
  import opened CardRouter
  import opened Audio
  import opened Jukebox

  /** A poll that reported no card (no new card, or its serial could not be read). */
  predicate IsMiss(input: Input)
  {
    !input.poll.CardSerial?
  }

  predicate AllMisses(inputs: seq<Input>)
  {
    forall i :: 0 <= i < |inputs| ==> IsMiss(inputs[i])
  }

  /** The card operations of a cycle are those of its card half alone. */
  lemma CycleCardCalls(s: State, input: Input)
    requires IsMappedVolume(input.volume)
    ensures CardCalls(Cycle(s, input).calls) == PresenceStep(s.(lastVolume := input.volume), input.poll).calls
  {
    var v := VolumeStep(s, input.volume);
    var p := PresenceStep(v.next, input.poll);
    assert Cycle(s, input).calls == v.calls + p.calls;
  }

  /** The first cycle after power-up always sends the volume: no level has been sent yet. */
  lemma FirstCycleSendsVolume(input: Input)
    requires IsMappedVolume(input.volume)
    ensures Cycle(START, input).calls != []
    ensures Cycle(START, input).calls[0] == SetVolume(input.volume)
  {
  }

  /** While the knob stays where it was last sent, no volume command goes out. */
  lemma {:induction false} SteadyVolume(s: State, inputs: seq<Input>)
    requires AllMappedVolumes(inputs)
    requires forall i :: 0 <= i < |inputs| ==> inputs[i].volume == s.lastVolume
    ensures Trace(s, inputs).calls == CardCalls(Trace(s, inputs).calls)
    ensures Trace(s, inputs).next.lastVolume == s.lastVolume
    decreases |inputs|
  {
    if inputs != [] {
      var first := Cycle(s, inputs[0]);
      var rest := Trace(first.next, inputs[1..]);
      SteadyVolume(first.next, inputs[1..]);
      CardCallsAppend(first.calls, rest.calls);
    }
  }

  /**
   * A detected card that differs from the held one is taken at once: it
   * starts its track if it has one; an unknown card instead pauses whatever
   * was playing. A known card's track is started even while another plays,
   * without a pause first.
   */
  lemma NewCardTakesOver(s: State, input: Input)
    requires Inv(s) && IsMappedVolume(input.volume)
    requires input.poll.CardSerial? && EncodeUID(input.poll.uid) != s.currentUID
    ensures var uid, o := EncodeUID(input.poll.uid), Cycle(s, input);
      && o.next.currentUID == uid
      && o.next.missedReads == 0
      && (o.next.isPlaying <==> TrackForUID(uid) != 0)
      && CardCalls(o.calls) ==
           if TrackForUID(uid) != 0 then [PlayTrack(TrackForUID(uid))]
           else if s.isPlaying then [Pause] else []
  {
    CycleCardCalls(s, input);
  }

  /** Seeing the held card again only resets the miss count: nothing is replayed or paused. */
  lemma SameCardIsQuiet(s: State, input: Input)
    requires Inv(s) && IsMappedVolume(input.volume)
    requires input.poll.CardSerial? && EncodeUID(input.poll.uid) == s.currentUID
    ensures Cycle(s, input).next == s.(lastVolume := input.volume, missedReads := 0)
    ensures CardCalls(Cycle(s, input).calls) == []
  {
    CycleCardCalls(s, input);
  }

  /** With no card held, misses change nothing about the card and invoke no card operation. */
  lemma {:induction false} AbsentStaysAbsent(s: State, inputs: seq<Input>)
    requires Inv(s) && s.currentUID == ""
    requires AllMappedVolumes(inputs) && AllMisses(inputs)
    ensures Trace(s, inputs).next.currentUID == ""
    ensures !Trace(s, inputs).next.isPlaying
    ensures Trace(s, inputs).next.missedReads == 0
    ensures CardCalls(Trace(s, inputs).calls) == []
    decreases |inputs|
  {
    if inputs != [] {
      var first := Cycle(s, inputs[0]);
      var rest := Trace(first.next, inputs[1..]);
      CycleCardCalls(s, inputs[0]);
      assert IsMiss(inputs[0]);
      AbsentStaysAbsent(first.next, inputs[1..]);
      CardCallsAppend(first.calls, rest.calls);
    }
  }

  /**
   * The removal debounce: a held card survives a run of misses shorter than
   * what is left of the threshold, untouched and with no card operation;
   * once the run reaches it, the card is dropped, and playback is paused
   * exactly once if it was active.
   */
  lemma {:induction false} MissRun(s: State, inputs: seq<Input>)
    requires Inv(s) && s.currentUID != ""
    requires AllMappedVolumes(inputs) && AllMisses(inputs)
    ensures var o := Trace(s, inputs);
      if s.missedReads + |inputs| < REMOVAL_THRESHOLD then
        && o.next.currentUID == s.currentUID
        && o.next.isPlaying == s.isPlaying
        && o.next.missedReads == s.missedReads + |inputs|
        && CardCalls(o.calls) == []
      else
        && o.next.currentUID == ""
        && !o.next.isPlaying
        && o.next.missedReads == 0
        && CardCalls(o.calls) == (if s.isPlaying then [Pause] else [])
    decreases |inputs|
  {
    if inputs != [] {
      var first := Cycle(s, inputs[0]);
      var rest := Trace(first.next, inputs[1..]);
      CycleCardCalls(s, inputs[0]);
      assert IsMiss(inputs[0]);
      CardCallsAppend(first.calls, rest.calls);
      if s.missedReads + 1 < REMOVAL_THRESHOLD {
        MissRun(first.next, inputs[1..]);
      } else {
        AbsentStaysAbsent(first.next, inputs[1..]);
      }
    }
  }

  /**
   * Polls in which the card `uid` is either seen or missed, never for
   * `REMOVAL_THRESHOLD` polls in a row counting the `missed` ones before.
   */
  predicate Flickers(uid: string, missed: nat, inputs: seq<Input>)
    decreases |inputs|
  {
    inputs == [] ||
    (if IsMiss(inputs[0]) then missed + 1 < REMOVAL_THRESHOLD && Flickers(uid, missed + 1, inputs[1..])
     else EncodeUID(inputs[0].poll.uid) == uid && Flickers(uid, 0, inputs[1..]))
  }

  /**
   * A held card that is only ever seen again, or missed for shorter runs
   * than the threshold, stays the current card and is never replayed or
   * paused, however its reads flicker.
   */
  lemma {:induction false} FlickeringCardKeepsPlaying(s: State, inputs: seq<Input>)
    requires Inv(s) && s.currentUID != ""
    requires AllMappedVolumes(inputs) && Flickers(s.currentUID, s.missedReads, inputs)
    ensures Trace(s, inputs).next.currentUID == s.currentUID
    ensures Trace(s, inputs).next.isPlaying == s.isPlaying
    ensures CardCalls(Trace(s, inputs).calls) == []
    decreases |inputs|
  {
    if inputs != [] {
      var first := Cycle(s, inputs[0]);
      var rest := Trace(first.next, inputs[1..]);
      CycleCardCalls(s, inputs[0]);
      CardCallsAppend(first.calls, rest.calls);
      FlickeringCardKeepsPlaying(first.next, inputs[1..]);
    }
  }

  /**
   * A known card laid down and read as seen, seen, missed, seen: the volume
   * is sent, the card's track starts once, and the missed read causes no
   * pause and no replay.
   */
  lemma FlickerSession(volume: int, card: seq<uint8>)
    requires IsMappedVolume(volume) && TrackForUID(EncodeUID(card)) != 0
    ensures var seen, miss := Input(volume, CardSerial(card)), Input(volume, NoNewCard);
      Trace(START, [seen, seen, miss, seen]).calls == [SetVolume(volume), PlayTrack(TrackForUID(EncodeUID(card)))]
  {
    var seen, miss := Input(volume, CardSerial(card)), Input(volume, NoNewCard);
    var inputs := [seen, seen, miss, seen];
    var first := Cycle(START, seen);
    NewCardTakesOver(START, seen);
    assert first.calls == [SetVolume(volume), PlayTrack(TrackForUID(EncodeUID(card)))];
    var uid := EncodeUID(card);
    assert Flickers(uid, 0, [seen][1..]);
    assert Flickers(uid, 0, [seen]);
    assert [miss, seen][1..] == [seen];
    assert Flickers(uid, 0, [miss, seen]);
    assert [seen, miss, seen][1..] == [miss, seen];
    assert Flickers(uid, 0, [seen, miss, seen]);
    assert inputs[1..] == [seen, miss, seen];
    FlickeringCardKeepsPlaying(first.next, inputs[1..]);
    SteadyVolume(first.next, inputs[1..]);
  }

  /** `n` polls at `volume` that see no card. */
  function Absent(volume: int, n: nat): (inputs: seq<Input>)
    ensures |inputs| == n
    ensures forall i :: 0 <= i < n ==> inputs[i] == Input(volume, NoNewCard)
  {
    if n == 0 then [] else Absent(volume, n - 1) + [Input(volume, NoNewCard)]
  }

  /** Laying a known card on the reader of a freshly started jukebox sets the volume and starts the card's track. */
  lemma LayDown(volume: int, card: seq<uint8>)
    requires IsMappedVolume(volume) && TrackForUID(EncodeUID(card)) != 0
    ensures Cycle(START, Input(volume, CardSerial(card)))
         == Outcome(State(EncodeUID(card), volume, true, 0), [SetVolume(volume), PlayTrack(TrackForUID(EncodeUID(card)))])
  {
    NewCardTakesOver(START, Input(volume, CardSerial(card)));
  }

  /**
   * A known card laid down and then taken away for `n` polls: its track
   * starts, and keeps playing while fewer than five polls have missed it;
   * the fifth miss pauses it and forgets the card.
   */
  lemma RemovalSession(volume: int, card: seq<uint8>, n: nat)
    requires IsMappedVolume(volume) && TrackForUID(EncodeUID(card)) != 0
    ensures var track := TrackForUID(EncodeUID(card));
      var o := Trace(START, [Input(volume, CardSerial(card))] + Absent(volume, n));
      if n < REMOVAL_THRESHOLD then
        && o.calls == [SetVolume(volume), PlayTrack(track)]
        && o.next == State(EncodeUID(card), volume, true, n)
      else
        && o.calls == [SetVolume(volume), PlayTrack(track), Pause]
        && o.next == State("", volume, false, 0)
  {
    var seen := Input(volume, CardSerial(card));
    var misses := Absent(volume, n);
    var inputs := [seen] + misses;
    LayDown(volume, card);
    var held := State(EncodeUID(card), volume, true, 0);
    assert AllMisses(misses) && AllMappedVolumes(misses);
    MissRun(held, misses);
    SteadyVolume(held, misses);
    var rest := Trace(held, misses);
    assert inputs[0] == seen && inputs[1..] == misses;
    assert Trace(START, inputs) == Outcome(rest.next, [SetVolume(volume), PlayTrack(TrackForUID(EncodeUID(card)))] + rest.calls);
    if n < REMOVAL_THRESHOLD {
      assert rest.calls == [];
    } else {
      assert rest.calls == [Pause];
    }
  }

  /** While a known card's track plays, a card with no track pauses it and becomes the held card. */
  lemma UnknownCardSession(volume: int, card: seq<uint8>, other: seq<uint8>)
    requires IsMappedVolume(volume) && TrackForUID(EncodeUID(card)) != 0 && TrackForUID(EncodeUID(other)) == 0
    ensures var o := Trace(START, [Input(volume, CardSerial(card)), Input(volume, CardSerial(other))]);
      && o.calls == [SetVolume(volume), PlayTrack(TrackForUID(EncodeUID(card))), Pause]
      && o.next == State(EncodeUID(other), volume, false, 0)
  {
    var inputs := [Input(volume, CardSerial(card)), Input(volume, CardSerial(other))];
    var first := Cycle(START, inputs[0]);
    NewCardTakesOver(START, inputs[0]);
    assert first.calls == [SetVolume(volume), PlayTrack(TrackForUID(EncodeUID(card)))];
    assert first.next == State(EncodeUID(card), volume, true, 0);
    var second := Cycle(first.next, inputs[1]);
    NewCardTakesOver(first.next, inputs[1]);
    assert second.calls == [Pause];
    assert inputs[1..] == [inputs[1]];
    assert [inputs[1]][1..] == [];
    assert Trace(first.next, inputs[1..]) == Outcome(second.next, second.calls);
    assert Trace(START, inputs) == Outcome(second.next, first.calls + second.calls);
  }

  /** The card that starts track 6, as the reader reports its UID. */
  function CardSix(): (uid: seq<uint8>)
    ensures |uid| == 4
    ensures TrackForUID(EncodeUID(uid)) == 6
  {
    ConfiguredCardsStartTheirTracks(5);
    CONFIGURED_CARDS[5]
  }

  /** A card whose UID is all zero bytes is unknown. */
  lemma ZeroCardIsUnknown()
    ensures TrackForUID(EncodeUID([0, 0, 0, 0])) == 0
  {
    EncodeUID4(0, 0, 0, 0);
  }

  /** The command line that sets volume 10. */
  lemma VolumeTenCommand()
    ensures Emitted(SetVolume(10)) == ["AT+VOL=10"]
  {
    assert Digits(10, 10) == "10" by {
      DivMod(10, 10);
    }
    assert ClampVolume(10) == 10;
    assert VolumeCommand(10) == VOLUME_PREFIX + "10" == "AT+VOL=10";
  }

  /** The command lines that start track 6: its file, then loop mode again. */
  lemma TrackSixCommands()
    ensures Emitted(PlayTrack(6)) == ["AT+PLAYFILE=/0006.mp3", "AT+PLAYMODE=1"]
  {
    assert Digits(6, 10) == "6";
    assert TrackFileName(6) == "/" + "000" + "6" + ".mp3" == "/0006.mp3";
    assert PlayFileCommand("/0006.mp3") == PLAY_FILE_PREFIX + "/0006.mp3" == "AT+PLAYFILE=/0006.mp3";
    assert PlayTrackCommands(6) == [PlayFileCommand("/0006.mp3"), CMD_LOOP_MODE];
  }

  /** The command lines sent when the card of track 6 is laid down at volume 10. */
  lemma StartTrackSixCommands()
    ensures Render([SetVolume(10), PlayTrack(6)]) == ["AT+VOL=10", "AT+PLAYFILE=/0006.mp3", "AT+PLAYMODE=1"]
  {
    VolumeTenCommand();
    TrackSixCommands();
    RenderAppend([SetVolume(10)], [PlayTrack(6)]);
    assert [SetVolume(10)] + [PlayTrack(6)] == [SetVolume(10), PlayTrack(6)];
    assert Render([SetVolume(10)]) == Emitted(SetVolume(10)) + Render([]);
    assert Render([PlayTrack(6)]) == Emitted(PlayTrack(6)) + Render([]);
  }
}
