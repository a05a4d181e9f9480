/**
 * `trackForUID`: the fixed table that tells which track a card starts.
 * Six card identities are known; every other string, the empty one
 * included, stands for an unknown card and gives track 0.
 */
module CardRouter {
  import opened Arduino
  import RfidReader

  /** The configured cards, identity to track, as one table. */
  const TRACK_TABLE: map<string, uint16> := map[
    "C1:9E:CC:E4" := 1,
    "B1:A0:CC:E4" := 2,
    "E1:96:CC:E4" := 3,
    "91:A2:CC:E4" := 4,
    "F1:94:CC:E4" := 5,
    "C1:98:CC:E4" := 6
  ]

  /**
   * The track for a card identity, compared in turn against each known
   * identity; 0 when the card is unknown.
   */
  function TrackForUID(uid: string): (track: uint16)
    ensures track <= 6
  {
    if uid == "C1:9E:CC:E4" then 1
    else if uid == "B1:A0:CC:E4" then 2
    else if uid == "E1:96:CC:E4" then 3
    else if uid == "91:A2:CC:E4" then 4
    else if uid == "F1:94:CC:E4" then 5
    else if uid == "C1:98:CC:E4" then 6
    else 0
  }

  /**
   * The chain of comparisons is the table: the result is the table's entry
   * for a known identity and 0 otherwise, and it is 0 only for unknown cards.
   */
  lemma TrackForUIDIsTable(uid: string)
    ensures TrackForUID(uid) == (if uid in TRACK_TABLE then TRACK_TABLE[uid] else 0)
    ensures TrackForUID(uid) == 0 <==> uid !in TRACK_TABLE
  {
  }

  /** No two known cards share a track. */
  lemma KnownTracksDistinct(u: string, v: string)
    requires u in TRACK_TABLE && v in TRACK_TABLE && u != v
    ensures TrackForUID(u) != TrackForUID(v)
  {
    TrackForUIDIsTable(u);
    TrackForUIDIsTable(v);
  }

  /** A string spelled as the pairs of a 4-byte UID is the reader's identity for it. */
  lemma IsReaderIdentity(uid: seq<uint8>, u: string)
    requires |uid| == 4
    requires u == [RfidReader.HexDigit(uid[0] / 16), RfidReader.HexDigit(uid[0] % 16), ':',
                   RfidReader.HexDigit(uid[1] / 16), RfidReader.HexDigit(uid[1] % 16), ':',
                   RfidReader.HexDigit(uid[2] / 16), RfidReader.HexDigit(uid[2] % 16), ':',
                   RfidReader.HexDigit(uid[3] / 16), RfidReader.HexDigit(uid[3] % 16)]
    ensures RfidReader.EncodeUID(uid) == u
  {
    RfidReader.EncodeUID4(uid[0], uid[1], uid[2], uid[3]);
    assert uid == [uid[0], uid[1], uid[2], uid[3]];
  }

  /** The UID bytes of the six configured cards, as the reader reports them, in track order. */
  const CONFIGURED_CARDS: seq<seq<uint8>> := [
    [0xC1, 0x9E, 0xCC, 0xE4],
    [0xB1, 0xA0, 0xCC, 0xE4],
    [0xE1, 0x96, 0xCC, 0xE4],
    [0x91, 0xA2, 0xCC, 0xE4],
    [0xF1, 0x94, 0xCC, 0xE4],
    [0xC1, 0x98, 0xCC, 0xE4]
  ]

  /**
   * Every key of the table is the identity the reader makes of a 4-byte UID
   * (so each configured card can actually be recognised), and the card whose
   * identity is key k starts track k.
   */
  lemma {:induction false} ConfiguredCardsStartTheirTracks(i: nat)
    requires i < |CONFIGURED_CARDS|
    ensures |CONFIGURED_CARDS[i]| == 4
    ensures TrackForUID(RfidReader.EncodeUID(CONFIGURED_CARDS[i])) == i + 1
  {
    var uid := CONFIGURED_CARDS[i];
    if i == 0 {
      IsReaderIdentity(uid, "C1:9E:CC:E4");
    } else if i == 1 {
      IsReaderIdentity(uid, "B1:A0:CC:E4");
    } else if i == 2 {
      IsReaderIdentity(uid, "E1:96:CC:E4");
    } else if i == 3 {
      IsReaderIdentity(uid, "91:A2:CC:E4");
    } else if i == 4 {
      IsReaderIdentity(uid, "F1:94:CC:E4");
    } else {
      IsReaderIdentity(uid, "C1:98:CC:E4");
    }
  }

  /**
   * Every key of the table is the reader's identity of one configured card,
   * the one of its own track: 11 characters of upper-case hex pairs joined
   * by colons.
   */
  lemma TableKeysAreCardIdentities(u: string)
    requires u in TRACK_TABLE
    ensures 1 <= TRACK_TABLE[u] <= |CONFIGURED_CARDS|
    ensures u == RfidReader.EncodeUID(CONFIGURED_CARDS[TRACK_TABLE[u] - 1])
    ensures |u| == 11
  {
    TrackForUIDIsTable(u);
    var i := TRACK_TABLE[u] - 1;
    var v := RfidReader.EncodeUID(CONFIGURED_CARDS[i]);
    ConfiguredCardsStartTheirTracks(i);
    TrackForUIDIsTable(v);
    if u != v {
      KnownTracksDistinct(u, v);
    }
  }
}
