/**
 * The jukebox's main loop (`loop()` in the firmware). Each cycle reads the
 * volume knob, polls the card reader once, keeps a debounced belief about
 * which card lies on the reader, and starts or pauses playback.
 *
 * The loop's global variables are the fields of `Controller`; what one cycle
 * does to them, and which audio-player operations it invokes, is the pure
 * function `Cycle`, which `Controller.Step` is proved to follow.
 */
module Jukebox {
  import opened Arduino
  import opened RfidReader
  import opened CardRouter
  import opened Audio

  /** Consecutive missed polls after which a card counts as removed. */
  const REMOVAL_THRESHOLD := 5
  /** The range the knob reading is mapped onto before it reaches the loop. */
  const MIN_VOLUME := 1
  const MAX_VOLUME := 25

  predicate IsMappedVolume(volume: int)
  {
    MIN_VOLUME <= volume <= MAX_VOLUME
  }

  /** An audio-player operation the loop invokes. */
  datatype AudioCall = SetVolume(vol: uint8) | PlayTrack(track: uint16) | Pause

  /** The command lines one operation writes to the audio module. */
  function Emitted(call: AudioCall): seq<string>
  {
    match call
    case SetVolume(vol) => [VolumeCommand(vol)]
    case PlayTrack(track) => PlayTrackCommands(track)
    case Pause => [CMD_PLAY_PAUSE]
  }

  /** The command lines a sequence of operations writes, in order. */
  function Render(calls: seq<AudioCall>): seq<string>
  {
    if calls == [] then [] else Emitted(calls[0]) + Render(calls[1..])
  }

  lemma {:induction false} RenderAppend(a: seq<AudioCall>, b: seq<AudioCall>)
    ensures Render(a + b) == Render(a) + Render(b)
  {
    if a != [] {
      RenderAppend(a[1..], b);
      assert (a + b)[0] == a[0];
      assert (a + b)[1..] == a[1..] + b;
      AppendAssociative(Emitted(a[0]), Render(a[1..]), Render(b));
    } else {
      assert a + b == b;
    }
  }

  lemma AppendAssociative<T>(a: seq<T>, b: seq<T>, c: seq<T>)
    ensures a + b + c == a + (b + c)
  {
  }

  /** The operations that concern the card (playing and pausing), in order: volume changes removed. */
  function CardCalls(calls: seq<AudioCall>): (cardCalls: seq<AudioCall>)
    ensures |cardCalls| <= |calls|
    ensures forall i :: 0 <= i < |cardCalls| ==> !cardCalls[i].SetVolume?
  {
    if calls == [] then []
    else (if calls[0].SetVolume? then [] else [calls[0]]) + CardCalls(calls[1..])
  }

  lemma {:induction false} CardCallsAppend(a: seq<AudioCall>, b: seq<AudioCall>)
    ensures CardCalls(a + b) == CardCalls(a) + CardCalls(b)
  {
    if a != [] {
      CardCallsAppend(a[1..], b);
      assert (a + b)[1..] == a[1..] + b;
    } else {
      assert a + b == b;
    }
  }

  /** The loop's global variables. */
  datatype State = State(currentUID: string, lastVolume: int, isPlaying: bool, missedReads: int)

  /** Their values at power-up: no card, no volume sent yet, nothing playing. */
  const START := State("", -1, false, 0)

  /**
   * What every cycle preserves: the miss counter stays below the threshold
   * and is zero when no card is held, and playback is only believed active
   * while a card with a track is held.
   */
  predicate Inv(s: State)
  {
    && 0 <= s.missedReads < REMOVAL_THRESHOLD
    && (s.currentUID == "" ==> s.missedReads == 0)
    && (s.isPlaying ==> s.currentUID != "" && TrackForUID(s.currentUID) != 0)
  }

  /** What one cycle reads: the mapped knob position and one poll of the reader. */
  datatype Input = Input(volume: int, poll: Poll)

  /** What one or more cycles produce: the new variables and the operations invoked. */
  datatype Outcome = Outcome(next: State, calls: seq<AudioCall>)

  /** The volume half of a cycle: send the volume only when it changed. */
  function VolumeStep(s: State, volume: int): (o: Outcome)
    requires IsMappedVolume(volume)
    ensures o.next == s.(lastVolume := volume)
    ensures o.calls == if volume != s.lastVolume then [SetVolume(volume)] else []
  {
    if volume != s.lastVolume then Outcome(s.(lastVolume := volume), [SetVolume(volume)])
    else Outcome(s, [])
  }

  /**
   * The card half of a cycle: a detected card resets the miss counter and,
   * when it differs from the held one, is taken at once and starts its track
   * (or pauses, for an unknown card, if something plays); a miss while a card
   * is held counts, and the fifth in a row drops the card and pauses if
   * something plays.
   */
  function PresenceStep(s: State, poll: Poll): (o: Outcome)
    ensures Inv(s) ==> Inv(o.next)
    ensures o.next.lastVolume == s.lastVolume
    ensures || o.calls == []
            || (o.calls == [Pause] && s.isPlaying && !o.next.isPlaying)
            || (o.calls == [PlayTrack(TrackForUID(o.next.currentUID))] && TrackForUID(o.next.currentUID) != 0 && o.next.isPlaying)
  {
    match poll
    case CardSerial(bytes) =>
      var uid := EncodeUID(bytes);
      if uid != s.currentUID then
        var track := TrackForUID(uid);
        if track == 0 then
          Outcome(s.(currentUID := uid, isPlaying := false, missedReads := 0), if s.isPlaying then [Pause] else [])
        else
          Outcome(s.(currentUID := uid, isPlaying := true, missedReads := 0), [PlayTrack(track)])
      else
        Outcome(s.(missedReads := 0), [])
    case _ =>
      if s.currentUID != "" then
        if s.missedReads + 1 >= REMOVAL_THRESHOLD then
          Outcome(s.(currentUID := "", isPlaying := false, missedReads := 0), if s.isPlaying then [Pause] else [])
        else
          Outcome(s.(missedReads := s.missedReads + 1), [])
      else
        Outcome(s, [])
  }

  /**
   * One cycle of the loop. It keeps `Inv`; it sends the volume first, and
   * exactly when it changed; and it then invokes at most one card operation:
   * a pause only when playback was believed active, a play only of the held
   * card's (non-zero) track.
   */
  function Cycle(s: State, input: Input): (o: Outcome)
    requires IsMappedVolume(input.volume)
    ensures Inv(s) ==> Inv(o.next)
    ensures o.next.lastVolume == input.volume
    ensures o.calls == (if input.volume != s.lastVolume then [SetVolume(input.volume)] else []) + CardCalls(o.calls)
    ensures var cardCalls := CardCalls(o.calls);
      || cardCalls == []
      || (cardCalls == [Pause] && s.isPlaying && !o.next.isPlaying)
      || (cardCalls == [PlayTrack(TrackForUID(o.next.currentUID))] && TrackForUID(o.next.currentUID) != 0 && o.next.isPlaying)
  {
    var v := VolumeStep(s, input.volume);
    var p := PresenceStep(v.next, input.poll);
    CardCallsAppend(v.calls, p.calls);
    Outcome(p.next, v.calls + p.calls)
  }

  predicate AllMappedVolumes(inputs: seq<Input>)
  {
    forall i :: 0 <= i < |inputs| ==> IsMappedVolume(inputs[i].volume)
  }

  /** Cycles run one after the other: the final variables and every operation invoked, in order. */
  function Trace(s: State, inputs: seq<Input>): (o: Outcome)
    requires AllMappedVolumes(inputs)
    ensures Inv(s) ==> Inv(o.next)
    decreases |inputs|
  {
    if inputs == [] then Outcome(s, [])
    else
      var first := Cycle(s, inputs[0]);
      var rest := Trace(first.next, inputs[1..]);
      Outcome(rest.next, first.calls + rest.calls)
  }

  /** A run is its first cycle followed by the run of the remaining inputs. */
  lemma TraceFirst(s: State, inputs: seq<Input>)
    requires inputs != [] && AllMappedVolumes(inputs)
    ensures Trace(s, inputs).next == Trace(Cycle(s, inputs[0]).next, inputs[1..]).next
    ensures Render(Trace(s, inputs).calls)
         == Render(Cycle(s, inputs[0]).calls) + Render(Trace(Cycle(s, inputs[0]).next, inputs[1..]).calls)
  {
    RenderAppend(Cycle(s, inputs[0]).calls, Trace(Cycle(s, inputs[0]).next, inputs[1..]).calls);
  }

  /** The loop's globals, and the audio player it drives. */
  class Controller {
    var currentUID: string
    var lastVolume: int
    var isPlaying: bool
    var missedReads: int
    const audio: AudioPlayer

    function Snapshot(): State
      reads this
    {
      State(currentUID, lastVolume, isPlaying, missedReads)
    }

    ghost predicate Valid()
      reads this
    {
      Inv(Snapshot())
    }

    constructor (audio: AudioPlayer)
      ensures Snapshot() == START && Valid()
      ensures this.audio == audio
    {
      currentUID := "";
      lastVolume := -1;
      isPlaying := false;
      missedReads := 0;
      this.audio := audio;
    }

    /** One pass of `loop()`, given the mapped knob reading and what the reader's poll returns. */
    method Step(volume: int, poll: Poll)
      requires Valid() && IsMappedVolume(volume)
      modifies this, audio`commands
      ensures Valid()
      ensures Snapshot() == Cycle(old(Snapshot()), Input(volume, poll)).next
      ensures audio.commands == old(audio.commands) + Render(Cycle(old(Snapshot()), Input(volume, poll)).calls)
    {
      ghost var v := VolumeStep(Snapshot(), volume);
      UpdateVolume(volume);
      ghost var p := PresenceStep(Snapshot(), poll);
      UpdatePresence(poll);
      RenderAppend(v.calls, p.calls);
    }

    /** The volume half of `loop()`: the new level is sent only when it differs from the last one. */
    method UpdateVolume(volume: int)
      requires IsMappedVolume(volume)
      modifies this`lastVolume, audio`commands
      ensures Snapshot() == VolumeStep(old(Snapshot()), volume).next
      ensures audio.commands == old(audio.commands) + Render(VolumeStep(old(Snapshot()), volume).calls)
    {
      if volume != lastVolume {
        lastVolume := volume;
        audio.SetVolume(volume);
      }
    }

    /** The card half of `loop()`: one poll of the reader and the debounce that follows it. */
    method UpdatePresence(poll: Poll)
      modifies this`currentUID, this`isPlaying, this`missedReads, audio`commands
      ensures Snapshot() == PresenceStep(old(Snapshot()), poll).next
      ensures audio.commands == old(audio.commands) + Render(PresenceStep(old(Snapshot()), poll).calls)
    {
      var cardDetected, uid := ReadCard(poll);
      if cardDetected {
        missedReads := 0;
        if uid != currentUID {
          currentUID := uid;
          var track := TrackForUID(uid);
          if track == 0 {
            if isPlaying {
              audio.Pause();
            }
            isPlaying := false;
          } else {
            audio.PlayTrack(track);
            isPlaying := true;
          }
        }
      } else if currentUID != "" {
        missedReads := missedReads + 1;
        if missedReads >= REMOVAL_THRESHOLD {
          if isPlaying {
            audio.Pause();
          }
          isPlaying := false;
          currentUID := "";
          missedReads := 0;
        }
      }
    }

    /** Runs the loop over a finite series of cycle inputs. */
    method Run(inputs: seq<Input>)
      requires Valid() && AllMappedVolumes(inputs)
      modifies this, audio`commands
      ensures Valid()
      ensures Snapshot() == Trace(old(Snapshot()), inputs).next
      ensures audio.commands == old(audio.commands) + Render(Trace(old(Snapshot()), inputs).calls)
    {
      for i := 0 to |inputs|
        invariant Valid()
        invariant Trace(Snapshot(), inputs[i..]).next == Trace(old(Snapshot()), inputs).next
        invariant audio.commands + Render(Trace(Snapshot(), inputs[i..]).calls)
               == old(audio.commands) + Render(Trace(old(Snapshot()), inputs).calls)
      {
        ghost var before, sent := Snapshot(), audio.commands;
        Step(inputs[i].volume, inputs[i].poll);
        assert inputs[i..][1..] == inputs[i + 1..];
        TraceFirst(before, inputs[i..]);
        AppendAssociative(sent, Render(Cycle(before, inputs[i]).calls), Render(Trace(Snapshot(), inputs[i + 1..]).calls));
      }
    }
  }
}
