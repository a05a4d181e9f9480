# RFID jukebox, modelled in Dafny

The firmware runs a small music box. An MFRC522 card reader is polled about
every 100 ms. Each card UID is rendered as a string like `"C1:98:CC:E4"` and
looked up in a fixed table of six cards, which gives a track number. A DFPlayer
PRO audio module, driven by text AT commands over a serial line, is told to
play the matching `/NNNN.mp3` file on repeat. A potentiometer sets the volume.
The main loop debounces the reader: a card counts as taken away only after
five consecutive polls that do not see it. A different card takes over at
once. Since "pause" is a toggle, it is only sent while playback is believed
active.

The model has one module per source file, plus the pieces of the Arduino
library the code relies on:

- `Arduino` (`arduino.dfy`) holds the fixed-width integer types.
  - `Digits(n, base)` stands for `String(n)` and `String(n, HEX)`, which write
    lower-case digits with no leading zeros. `ParseDigits` reads them back.
  - `ToUpperCase` is `String::toUpperCase` on ASCII.
- `RfidReader` (`rfid_reader.dfy`) models `readCard`.
  - The hardware poll is an input, `Poll`: no new card, serial read failed, or
    the card's UID bytes.
  - The `ReadCard` method builds the string the way the code does: a pad, the
    lower-case hex of each byte, a colon, and upper-casing at the end. It is
    proved equal to the reference encoding `EncodeUID`.
  - `EncodeUID` has an inverse, `DecodeUID`, and the round trip is proved both
    ways.
- `CardRouter` (`card_router.dfy`) models `trackForUID`.
  - It is the same chain of comparisons as the code.
  - It is proved equal to a lookup in the table `TRACK_TABLE`.
  - Each table key is shown to be what the reader makes of one of the six
    configured 4-byte UIDs.
- `Audio` (`audio_player.dfy`) models the class `AudioPlayer`.
  - The serial line is its field `commands`, the lines written so far. Every
    method is proved to append exactly the lines the code sends.
  - The line formats are pure functions: `VolumeCommand`, `TrackFileName` and
    `PlayTrackCommands`.
- `Jukebox` (`jukebox.dfy`) models `loop()`.
  - Its globals `currentUID`, `lastVolume`, `isPlaying` and `missedReads` are
    the fields of the class `Controller`.
  - One pass of `loop()` is `Controller.Step`. It is proved to follow the pure
    function `Cycle`, which gives the next values of the globals and the
    audio-player operations invoked (`AudioCall`). `Render` turns those
    operations into the command lines they send.
  - `Run` performs many passes. It is proved to follow `Trace`.
  - `Inv` is the invariant every pass keeps:
    - the miss counter is below 5;
    - the counter is zero while no card is held;
    - playback is believed active only while a card with a track is held.
- `JukeboxProperties` (`jukebox_properties.dfy`) holds the properties of the
  debounce over many passes, and example sessions.

## Model

| member | source | states |
|---|---|---|
| Arduino.Digits | src/AudioPlayer.cpp:41 | `String(n)` / `String(n, HEX)`: at least one character, every character a digit of the base, no leading zero |
| Arduino.ParseDigitsOfDigits | src/RfidReader.cpp:38 | the digits written for `n` read back as `n`, in any base from 2 to 16 |
| Arduino.DecimalWidth | src/AudioPlayer.cpp:51-53 | a number in [10^(k-1), 10^k) is written with exactly k decimal digits, the fact the padding chain of `playTrack` relies on |
| Arduino.ToUpperCase | src/RfidReader.cpp:44 | upper-casing keeps the length |
| Arduino.ToUpperCaseAt | src/RfidReader.cpp:44 | each character is upper-cased on its own, and no lower-case letter is left |
| Arduino.ToUpperCaseAppend | src/RfidReader.cpp:44 | upper-casing the whole string equals upper-casing its parts |
| RfidReader.ReadCard | src/RfidReader.cpp:20-51 | returns true exactly when the poll read a card's serial. It then yields the card's canonical identity; otherwise `""`. The identity is non-empty whenever the UID has a byte |
| RfidReader.EncodeUID | src/RfidReader.cpp:34-42 | an n-byte UID gives 3n-1 characters: two per byte, n-1 colons, none trailing. No bytes give `""` |
| RfidReader.EncodeUIDAt | src/RfidReader.cpp:35-41 | characters 3i and 3i+1 are the high and low nibble of byte i, as upper-case hex, zero-padded. A colon follows every pair but the last |
| RfidReader.EncodeUIDAlphabet | src/RfidReader.cpp:38-44 | the identity contains only 0-9, A-F and `:` |
| RfidReader.EncodeUID4 | src/RfidReader.cpp:33-44 | a 4-byte UID gives 11 characters: four hex pairs with colons at positions 2, 5 and 8 |
| RfidReader.HexDigit | src/RfidReader.cpp:38 | the upper-case digit written for a nibble reads back as that nibble |
| RfidReader.UpperHexPiece | src/RfidReader.cpp:35-38 | the pad and `String(b, HEX)` for one byte, upper-cased, are exactly the byte's two-digit pair |
| RfidReader.EncodeUIDSnoc | src/RfidReader.cpp:34-42 | the identity grows by `:` and one pair per extra byte, as the loop builds it |
| RfidReader.DecodeUID | src/RfidReader.cpp:33-44 | the inverse of the encoding. Whatever it accepts, other than `""`, has at least one byte |
| RfidReader.DecodeEncodeUID | src/RfidReader.cpp:34-44 | decoding an identity gives back the UID bytes in order |
| RfidReader.EncodeDecodeUID | src/RfidReader.cpp:34-44 | only canonical identities decode: a decoded string encodes back to itself |
| RfidReader.EncodeUIDInjective | src/RfidReader.cpp:34-44 | different UIDs never share an identity |
| CardRouter.TrackForUID | src/CardRouter.cpp:6-17 | total, with a result in [0, 6] |
| CardRouter.TrackForUIDIsTable | src/CardRouter.cpp:8-16 | the result is the configured track for each of the six identities and 0 for every other string, `""` included. It is 0 exactly for unknown identities |
| CardRouter.KnownTracksDistinct | src/CardRouter.cpp:8-13 | two different known identities have different tracks |
| CardRouter.IsReaderIdentity | src/CardRouter.cpp:8-13 | a string spelled as the hex pairs of four bytes is the reader's identity for those bytes |
| CardRouter.ConfiguredCardsStartTheirTracks | src/CardRouter.cpp:8-13 | the identity the reader makes of configured card k (4 bytes) routes to track k, for k = 1..6 |
| CardRouter.TableKeysAreCardIdentities | src/CardRouter.cpp:8-13 | every table key is the reader's identity of the configured card of its own track, 11 characters long |
| Audio.ClampVolume | src/AudioPlayer.cpp:40 | the level sent is at most 30. It equals the request when that is at most 30, and is 30 otherwise |
| Audio.AudioPlayer.constructor | src/AudioPlayer.cpp:3-6 | stores the pins; the player starts not ready (`!IsReady()`), with nothing sent |
| Audio.AudioPlayer.IsReady | include/AudioPlayer.h:19 | reports `_ready`: false from construction (`constructor` ensures `!IsReady()`), true once `begin` has run (`Begin` ensures `IsReady()`); no other method has `ready` in its frame |
| Audio.AudioPlayer.SendATCommand | src/AudioPlayer.cpp:8-11 | appends exactly one line, the command |
| Audio.AudioPlayer.Begin | src/AudioPlayer.cpp:13-37 | appends `AT+FUNCTION=MUSIC`, `AT+PLAYMODE=1`, `AT+VOL=15` in that order, becomes ready and returns true |
| Audio.InitialVolumeCommand | src/AudioPlayer.cpp:32 | the initial volume line is `AT+VOL=15` |
| Audio.AudioPlayer.SetVolume | src/AudioPlayer.cpp:39-42 | appends exactly one line, the volume command for the request; `ready` is untouched |
| Audio.VolumeCommandLevel | src/AudioPlayer.cpp:39-42 | a volume line is `AT+VOL=` and then one or two decimal digits that read as min(vol, 30) |
| Audio.AudioPlayer.PlayTrack | src/AudioPlayer.cpp:44-61 | appends nothing for track 0. Otherwise it appends the play-file line for the track's file, then `AT+PLAYMODE=1` |
| Audio.PaddedFileName | src/AudioPlayer.cpp:50-54 | the chain that adds "000", "00" or "0" pads the decimal track number to four digits |
| Audio.TrackFileNameFormat | src/AudioPlayer.cpp:50-54 | for tracks 1..9999 the name has 9 characters: `/`, four decimal digits that read back as the track, then `.mp3` |
| Audio.FourDigits | src/AudioPlayer.cpp:51-54 | a number up to 9999, zero-padded to four digits, reads back as itself |
| Audio.TrackFileNameUnpadded | src/AudioPlayer.cpp:50-54 | tracks from 10000 up get no padding: `/`, five digits, `.mp3` |
| Audio.TrackFileNameInjective | src/AudioPlayer.cpp:50-54 | different non-zero tracks play different files |
| Audio.PlayTrackEndsInLoopMode | src/AudioPlayer.cpp:56-60 | whatever was sent before, after a real track the last two lines are its play-file line and then loop mode |
| Audio.AudioPlayer.PlayFile | src/AudioPlayer.cpp:63-65 | appends exactly `AT+PLAYFILE=` followed by the path |
| Audio.AudioPlayer.Pause | src/AudioPlayer.cpp:67-70 | appends exactly one `AT+PLAY=PP` |
| Audio.AudioPlayer.Stop | src/AudioPlayer.cpp:72-74 | appends exactly one `AT+PLAY=PP`, like `pause` |
| Jukebox.VolumeStep | src/main.cpp:65-73 | afterwards `lastVolume` is the new volume. One volume operation is invoked exactly when the volume differs from the last one |
| Jukebox.PresenceStep | src/main.cpp:75-122 | keeps `Inv` and leaves the volume alone. It invokes nothing, or a pause (only when playback was active, which then stops), or a play of the held card's non-zero track (which then plays) |
| Jukebox.Cycle | src/main.cpp:63-125 | a whole pass. It keeps `Inv` and records the new volume. A volume operation comes first, exactly when the volume changed. It is followed by at most one card operation: a pause only while playing, a play only of the held card's non-zero track |
| Jukebox.Trace | src/main.cpp:63-125 | any number of passes keep `Inv` |
| Jukebox.Controller.constructor | src/main.cpp:28-31 | the globals start as `""`, -1, false and 0, which satisfy `Inv` |
| Jukebox.Controller.Step | src/main.cpp:63-125 | one pass of `loop()` keeps `Inv`. Its new globals are those of `Cycle`, and it sends exactly the command lines of `Cycle`'s operations |
| Jukebox.Controller.UpdateVolume | src/main.cpp:68-73 | the volume part of a pass follows `VolumeStep` and sends its lines |
| Jukebox.Controller.UpdatePresence | src/main.cpp:76-122 | the card part of a pass follows `PresenceStep` and sends its lines |
| Jukebox.Controller.Run | src/main.cpp:63-125 | passes run one after another keep `Inv`. They end in the state of `Trace` and send exactly the lines of its operations, in order |
| JukeboxProperties.CycleCardCalls | src/main.cpp:79-122 | the card operations of a pass are those of its card part alone |
| JukeboxProperties.FirstCycleSendsVolume | src/main.cpp:29 | the first pass after power-up always sets the volume first, because `lastVolume` starts at -1 |
| JukeboxProperties.SteadyVolume | src/main.cpp:68 | while the knob stays at the last volume sent, no volume operation is invoked |
| JukeboxProperties.NewCardTakesOver | src/main.cpp:83-102 | a different card is held at once and the miss count is zero. A card with a track starts that track, with no pause first; an unknown card pauses only if something played. Playback is then active exactly when the card has a track |
| JukeboxProperties.SameCardIsQuiet | src/main.cpp:79-104 | seeing the held card again only resets the miss count: no play and no pause |
| JukeboxProperties.AbsentStaysAbsent | src/main.cpp:105-107 | with no card held, misses change nothing and invoke no card operation |
| JukeboxProperties.MissRun | src/main.cpp:105-121 | a held card survives fewer than 5 - `missedReads` consecutive misses untouched, with no card operation. Once the run reaches it, the card is dropped, the count is zero and playback stops, with exactly one pause if it was active |
| JukeboxProperties.FlickeringCardKeepsPlaying | src/main.cpp:79-121 | a held card that is seen again, or missed fewer than 5 polls in a row, stays held with unchanged playback, and no card operation is invoked |
| JukeboxProperties.LayDown | src/main.cpp:83-101 | on a fresh jukebox, a known card sets the volume and starts its track |
| JukeboxProperties.FlickerSession | src/main.cpp:63-125 | a known card read as seen, seen, missed, seen sets the volume and starts its track exactly once |
| JukeboxProperties.RemovalSession | src/main.cpp:105-121 | after a known card is laid down and then missed n times, the track still plays for n < 5. From the fifth miss on, one pause follows and the card is forgotten |
| JukeboxProperties.UnknownCardSession | src/main.cpp:89-96 | while a known card plays, an unknown card pauses it and becomes the held card, not playing |
| JukeboxProperties.CardSix | src/CardRouter.cpp:13 | the configured card C1:98:CC:E4 has 4 bytes and routes to track 6 |
| JukeboxProperties.ZeroCardIsUnknown | src/CardRouter.cpp:15-16 | a UID of four zero bytes is unknown |
| JukeboxProperties.VolumeTenCommand | src/AudioPlayer.cpp:39-42 | volume 10 is sent as `AT+VOL=10` |
| JukeboxProperties.TrackSixCommands | src/AudioPlayer.cpp:49-60 | track 6 is sent as `AT+PLAYFILE=/0006.mp3`, then `AT+PLAYMODE=1` |
| JukeboxProperties.StartTrackSixCommands | src/main.cpp:68-100 | laying the track-6 card down at volume 10 sends `AT+VOL=10`, `AT+PLAYFILE=/0006.mp3`, `AT+PLAYMODE=1` |

## Left out

- `setup()` is not modelled (src/main.cpp:34-61). It covers the LED, `pinMode`, `Serial.begin` and the wait for the serial monitor. `audio.begin()` is modelled by `Audio.AudioPlayer.Begin`. `rfid.begin()` is driver set-up and is not modelled (see below).
- Every `delay(...)` is timing only, with no state the model could observe.
- `Serial.print` / `println` logging is output only.
- `analogRead` and Arduino's `map` are not modelled. `Jukebox.Controller.Step` takes the mapped volume as an input and requires it in [1, 25], the range `map` yields for a 10-bit reading. The rounding of `map` is not modelled.
- The MFRC522 driver is foreign hardware code: `PCD_Init`, `PICC_IsNewCardPresent`, `PICC_ReadCardSerial`, `PCD_StopCrypto1` and `SPI.begin`. So are `RfidReader`'s constructor, `begin` and `isCardPresent`. One poll is the input `Poll`.
- `RfidReader.ReadCard` accepts a UID of any length, while the driver reports 4, 7 or 10 bytes.
  - The 8-bit loop counter of `readCard` would wrap only beyond 255 bytes. That cannot arise, and it is not modelled.
  - A zero-byte UID is kept as the code handles it: true and `""`.
- `Serial1` pin and baud-rate set-up is not modelled. The `\r\n` that `println` appends to each command line is left implicit.
- The Arduino `String` class itself is not modelled. `String(n)`, `String(n, HEX)` and `toUpperCase` are replaced by the functions of module `Arduino`.
- `Audio.TrackFileName`: the file name is modelled for every 16-bit track, as the code builds it. Tracks from 10000 up get five unpadded digits. The contract promising four digits, `Audio.TrackFileNameFormat`, covers tracks 1 to 9999 only; the configured tracks are 1 to 6.
