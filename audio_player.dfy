/**
 * `AudioPlayer`: a fire-and-forget driver for the DFPlayer PRO audio module,
 * which takes text AT commands over a serial line and never answers.
 *
 * The serial line is modelled as the sequence of command lines written to it
 * so far (`commands`); each `sendATCommand` appends one line. The line
 * terminator that `println` adds, the pin and baud-rate set-up and the settle
 * delays are left implicit.
 */
module Audio {
  import opened Arduino

  /** The module's volume ceiling. */
  const MAX_LEVEL := 30
  /** The volume that `begin` sets. */
  const INITIAL_VOLUME: uint8 := 15

  const CMD_MUSIC_MODE := "AT+FUNCTION=MUSIC"
  /** Play mode 1: repeat the current track for ever. */
  const CMD_LOOP_MODE := "AT+PLAYMODE=1"
  /** Toggles between playing and paused; the module cannot be asked which it is in. */
  const CMD_PLAY_PAUSE := "AT+PLAY=PP"
  const VOLUME_PREFIX := "AT+VOL="
  const PLAY_FILE_PREFIX := "AT+PLAYFILE="

  /** The level actually sent for a requested volume: capped at 30. */
  function ClampVolume(vol: uint8): (level: uint8)
    ensures level <= MAX_LEVEL
    ensures level == vol || (vol > MAX_LEVEL && level == MAX_LEVEL)
  {
    if vol > MAX_LEVEL then MAX_LEVEL else vol
  }

  /** The command line `setVolume(vol)` sends. */
  function VolumeCommand(vol: uint8): string
  {
    VOLUME_PREFIX + Digits(ClampVolume(vol), 10)
  }

  /**
   * The file that plays track `track`: the decimal number zero-padded to four
   * digits, at the top of the storage, with the ".mp3" extension.
   */
  function TrackFileName(track: uint16): string
  {
    var digits := Digits(track, 10);
    "/" + (if |digits| < 4 then Zeros(4 - |digits|) else "") + digits + ".mp3"
  }

  /** The command line `playFile(path)` sends. */
  function PlayFileCommand(path: string): string
  {
    PLAY_FILE_PREFIX + path
  }

  /** The lines `playTrack(track)` sends: none for track 0, else play the file and re-assert loop mode. */
  function PlayTrackCommands(track: uint16): seq<string>
  {
    if track == 0 then [] else [PlayFileCommand(TrackFileName(track)), CMD_LOOP_MODE]
  }

  /** The lines `begin` sends, in order. */
  const BEGIN_COMMANDS: seq<string> := [CMD_MUSIC_MODE, CMD_LOOP_MODE, "AT+VOL=15"]

  class AudioPlayer {
    const txPin: uint8
    const rxPin: uint8
    /** Set once `begin` has sent the initialisation sequence. */
    var ready: bool
    /** Every command line written to the module's serial line so far. */
    var commands: seq<string>

    constructor (txPin: uint8, rxPin: uint8)
      ensures this.txPin == txPin && this.rxPin == rxPin
      ensures !IsReady() && commands == []
    {
      this.txPin := txPin;
      this.rxPin := rxPin;
      ready := false;
      commands := [];
    }

    /** `isReady`: whether `begin` has run. */
    function IsReady(): (r: bool)
      reads this
      ensures r <==> ready
    {
      ready
    }

    /** Writes one command line to the module. */
    method SendATCommand(cmd: string)
      modifies this`commands
      ensures commands == old(commands) + [cmd]
    {
      commands := commands + [cmd];
    }

    /**
     * Switches the module to music mode, sets loop mode and the initial
     * volume, and marks the player ready. Nothing acknowledges these
     * commands, so it always reports success.
     */
    method Begin() returns (ok: bool)
      modifies this`ready, this`commands
      ensures ok && IsReady()
      ensures commands == old(commands) + BEGIN_COMMANDS
    {
      SendATCommand(CMD_MUSIC_MODE);
      SendATCommand(CMD_LOOP_MODE);
      SetVolume(INITIAL_VOLUME);
      InitialVolumeCommand();
      ready := true;
      return true;
    }

    /** Sends the volume, capped at 30. */
    method SetVolume(vol: uint8)
      modifies this`commands
      ensures commands == old(commands) + [VolumeCommand(vol)]
    {
      var level := vol;
      if level > 30 {
        level := 30;
      }
      SendATCommand(VOLUME_PREFIX + Digits(level, 10));
    }

    /**
     * Plays track `track` from its zero-padded file and then re-asserts loop
     * mode, which the module drops whenever a file starts; does nothing for
     * track 0.
     */
    method PlayTrack(track: uint16)
      modifies this`commands
      ensures commands == old(commands) + PlayTrackCommands(track)
    {
      if track == 0 {
        return;
      }
      var filename := "/";
      if track < 10 {
        filename := filename + "000";
      } else if track < 100 {
        filename := filename + "00";
      } else if track < 1000 {
        filename := filename + "0";
      }
      assert filename == "/" + (if track < 10 then "000" else if track < 100 then "00" else if track < 1000 then "0" else "");
      filename := filename + Digits(track, 10) + ".mp3";
      PaddedFileName(track);
      PlayFile(filename);
      SendATCommand(CMD_LOOP_MODE);
    }

    method PlayFile(path: string)
      modifies this`commands
      ensures commands == old(commands) + [PlayFileCommand(path)]
    {
      SendATCommand(PLAY_FILE_PREFIX + path);
    }

    /** Toggles play/pause. */
    method Pause()
      modifies this`commands
      ensures commands == old(commands) + [CMD_PLAY_PAUSE]
    {
      SendATCommand(CMD_PLAY_PAUSE);
    }

    /** The same toggle as `Pause`. */
    method Stop()
      modifies this`commands
      ensures commands == old(commands) + [CMD_PLAY_PAUSE]
    {
      Pause();
    }
  }

  lemma InitialVolumeCommand()
    ensures VolumeCommand(INITIAL_VOLUME) == "AT+VOL=15"
  {
    assert Digits(15, 10) == Digits(1, 10) + [DigitChar(5)];
  }

  /** The if-chain of `playTrack` pads exactly up to four digits. */
  lemma PaddedFileName(track: uint16)
    requires track != 0
    ensures TrackFileName(track) ==
      "/" + (if track < 10 then "000" else if track < 100 then "00" else if track < 1000 then "0" else "")
      + Digits(track, 10) + ".mp3"
  {
    var n := |Digits(track, 10)|;
    if track < 10 {
      DecimalWidth(track, 1);
      assert Zeros(3) == "000";
    } else if track < 100 {
      DecimalWidth(track, 2);
      assert Zeros(2) == "00";
    } else if track < 1000 {
      DecimalWidth(track, 3);
      assert Zeros(1) == "0";
    } else if track < 10000 {
      DecimalWidth(track, 4);
    } else {
      DecimalWidth(track, 5);
    }
  }

  /**
   * A volume command is the prefix followed by the decimal level, at most two
   * digits, and the level it carries is the requested volume capped at 30.
   */
  lemma VolumeCommandLevel(vol: uint8)
    ensures var cmd := VolumeCommand(vol);
      && |VOLUME_PREFIX| < |cmd| <= |VOLUME_PREFIX| + 2
      && cmd[..|VOLUME_PREFIX|] == VOLUME_PREFIX
      && IsDigits(cmd[|VOLUME_PREFIX|..], 10)
      && ParseDigits(cmd[|VOLUME_PREFIX|..], 10) == (if vol > MAX_LEVEL then MAX_LEVEL else vol)
  {
    var level := ClampVolume(vol);
    var cmd := VolumeCommand(vol);
    assert cmd[|VOLUME_PREFIX|..] == Digits(level, 10);
    ParseDigitsOfDigits(level, 10);
    if level < 10 {
      DecimalWidth(level, 1);
    } else {
      DecimalWidth(level, 2);
    }
  }

  /**
   * For tracks 1 to 9999 the file name has nine characters: "/", four
   * decimal digits that read back as the track number, and ".mp3".
   */
  lemma TrackFileNameFormat(track: uint16)
    requires 1 <= track <= 9999
    ensures var name := TrackFileName(track);
      && |name| == 9
      && name[0] == '/'
      && name[5..] == ".mp3"
      && IsDigits(name[1..5], 10)
      && ParseDigits(name[1..5], 10) == track
  {
    var digits := Digits(track, 10);
    FourDigits(track);
    var padded := Zeros(4 - |digits|) + digits;
    assert TrackFileName(track) == "/" + padded + ".mp3";
  }

  /** A number below 10000 zero-padded to four digits reads back as itself. */
  lemma FourDigits(n: nat)
    requires n <= 9999
    ensures var digits := Digits(n, 10);
      && |digits| <= 4
      && var padded := Zeros(4 - |digits|) + digits;
      && |padded| == 4
      && IsDigits(padded, 10)
      && ParseDigits(padded, 10) == n
  {
    var digits := Digits(n, 10);
    assert Pow10(1) == 10 && Pow10(2) == 100 && Pow10(3) == 1000 && Pow10(4) == 10000;
    if n < 10 {
      DecimalWidth(n, 1);
    } else if n < 100 {
      DecimalWidth(n, 2);
    } else if n < 1000 {
      DecimalWidth(n, 3);
    } else {
      DecimalWidth(n, 4);
    }
    ParseDigitsZeroPadded(4 - |digits|, digits, 10);
    ParseDigitsOfDigits(n, 10);
  }

  /** Above 9999 nothing is padded: the name is the plain five-digit number. */
  lemma TrackFileNameUnpadded(track: uint16)
    requires track >= 10000
    ensures TrackFileName(track) == "/" + Digits(track, 10) + ".mp3"
    ensures |TrackFileName(track)| == 10
  {
    DecimalWidth(track, 5);
  }

  /** Different tracks play different files. */
  lemma TrackFileNameInjective(a: uint16, b: uint16)
    requires a != 0 && b != 0
    requires TrackFileName(a) == TrackFileName(b)
    ensures a == b
  {
    var name := TrackFileName(a);
    if a <= 9999 && b <= 9999 {
      TrackFileNameFormat(a);
      TrackFileNameFormat(b);
    } else if a > 9999 && b > 9999 {
      TrackFileNameUnpadded(a);
      TrackFileNameUnpadded(b);
      assert Digits(a, 10) == name[1..|name| - 4] == Digits(b, 10);
      ParseDigitsOfDigits(a, 10);
      ParseDigitsOfDigits(b, 10);
    } else if a > 9999 {
      TrackFileNameUnpadded(a);
      TrackFileNameFormat(b);
    } else {
      TrackFileNameFormat(a);
      TrackFileNameUnpadded(b);
    }
  }

  /**
   * Whatever was sent before, after `playTrack` of a real track the last two
   * lines are the file to play and then loop mode.
   */
  lemma PlayTrackEndsInLoopMode(history: seq<string>, track: uint16)
    requires track != 0
    ensures var sent := history + PlayTrackCommands(track);
      && |sent| == |history| + 2
      && sent[|sent| - 2] == PlayFileCommand(TrackFileName(track))
      && sent[|sent| - 1] == CMD_LOOP_MODE
  {
  }
}
