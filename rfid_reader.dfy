/**
 * The card-reading side of the jukebox: `RfidReader::readCard`, which polls
 * the MFRC522 once and renders the card's UID bytes as upper-case,
 * colon-separated hexadecimal pairs ("C1:98:CC:E4").
 *
 * The MFRC522 driver itself (SPI, `PICC_IsNewCardPresent`,
 * `PICC_ReadCardSerial`, `PCD_StopCrypto1`) is outside the model: what one
 * poll of it yields is the input `Poll`.
 */
module RfidReader {
  import opened Arduino
  import opened Wrappers

  /** What one poll of the reader hardware reports. */
  datatype Poll =
    | NoNewCard                    // PICC_IsNewCardPresent() was false
    | ReadSerialFailed             // PICC_ReadCardSerial() was false
    | CardSerial(uid: seq<uint8>)  // the bytes of the selected card's UID

  /** Upper-case hexadecimal digit for 0 <= d < 16. */
  function HexDigit(d: nat): (c: char)
    requires d < 16
    ensures HexValue(c) == d
  {
    if d < 10 then ('0' as int + d) as char else ('A' as int + d - 10) as char
  }

  /** Value of an upper-case hexadecimal digit; 16 for any other character. */
  function HexValue(c: char): (d: nat)
    ensures d <= 16
  {
    if '0' <= c <= '9' then c as int - '0' as int
    else if 'A' <= c <= 'F' then c as int - 'A' as int + 10
    else 16
  }

  /** The two-character canonical form of one byte, high nibble first. */
  function HexPair(b: uint8): (s: string)
  {
    [HexDigit(b / 16), HexDigit(b % 16)]
  }

  /**
   * The canonical identity of a card: each byte as an upper-case hex pair,
   * in order, with a colon between consecutive pairs and none at the end.
   */
  function EncodeUID(uid: seq<uint8>): (s: string)
    ensures |s| == if uid == [] then 0 else 3 * |uid| - 1
  {
    if |uid| == 0 then ""
    else if |uid| == 1 then HexPair(uid[0])
    else HexPair(uid[0]) + ":" + EncodeUID(uid[1..])
  }

  /** Reads a canonical identity back into its bytes; None for any other string. */
  function DecodeUID(s: string): (r: Option<seq<uint8>>)
    ensures r.Some? && s != "" ==> r.value != []
    decreases |s|
  {
    if s == "" then Some([])
    else if |s| < 2 || HexValue(s[0]) == 16 || HexValue(s[1]) == 16 then None
    else
      var b := HexValue(s[0]) * 16 + HexValue(s[1]);
      if |s| == 2 then Some([b])
      else if |s| == 3 || s[2] != ':' then None
      else match DecodeUID(s[3..])
        case None => None
        case Some(rest) => Some([b] + rest)
  }

  /** Pair i of the identity renders byte i, and a colon follows every pair but the last. */
  lemma {:induction false} EncodeUIDAt(uid: seq<uint8>, i: nat)
    requires i < |uid|
    ensures EncodeUID(uid)[3 * i] == HexDigit(uid[i] / 16)
    ensures EncodeUID(uid)[3 * i + 1] == HexDigit(uid[i] % 16)
    ensures i < |uid| - 1 ==> EncodeUID(uid)[3 * i + 2] == ':'
  {
    if i > 0 {
      EncodeUIDAt(uid[1..], i - 1);
    }
  }

  /** The identity is made of upper-case hexadecimal digits and colons only. */
  lemma EncodeUIDAlphabet(uid: seq<uint8>)
    ensures forall k :: 0 <= k < |EncodeUID(uid)| ==>
      EncodeUID(uid)[k] == ':' || HexValue(EncodeUID(uid)[k]) < 16
  {
    forall k | 0 <= k < |EncodeUID(uid)|
      ensures EncodeUID(uid)[k] == ':' || HexValue(EncodeUID(uid)[k]) < 16
    {
      EncodeUIDAt(uid, k / 3);
    }
  }

  /** The identity of a 4-byte UID, the size of the cards the jukebox is configured with. */
  lemma EncodeUID4(a: uint8, b: uint8, c: uint8, d: uint8)
    ensures EncodeUID([a, b, c, d]) ==
      [HexDigit(a / 16), HexDigit(a % 16), ':', HexDigit(b / 16), HexDigit(b % 16), ':',
       HexDigit(c / 16), HexDigit(c % 16), ':', HexDigit(d / 16), HexDigit(d % 16)]
  {
    assert [a, b, c, d][1..] == [b, c, d];
    assert [b, c, d][1..] == [c, d];
    assert [c, d][1..] == [d];
    assert EncodeUID([c, d]) == HexPair(c) + ":" + HexPair(d);
    assert EncodeUID([b, c, d]) == HexPair(b) + ":" + (HexPair(c) + ":" + HexPair(d));
  }

  /** Decoding an encoded identity gives back the bytes, in order. */
  lemma {:induction false} DecodeEncodeUID(uid: seq<uint8>)
    ensures DecodeUID(EncodeUID(uid)) == Some(uid)
  {
    if uid != [] {
      var s := EncodeUID(uid);
      var b := uid[0];
      DivMod(b, 16);
      assert s[0] == HexDigit(b / 16) && s[1] == HexDigit(b % 16);
      assert HexValue(s[0]) * 16 + HexValue(s[1]) == b;
      if |uid| > 1 {
        DecodeEncodeUID(uid[1..]);
        assert s[3..] == EncodeUID(uid[1..]);
        assert [b] + uid[1..] == uid;
      } else {
        assert uid == [b];
      }
    }
  }

  /** Only canonical identities decode: what decodes encodes back to the same string. */
  lemma {:induction false} EncodeDecodeUID(s: string)
    ensures DecodeUID(s).Some? ==> EncodeUID(DecodeUID(s).value) == s
    decreases |s|
  {
    if DecodeUID(s).Some? && |s| > 3 {
      EncodeDecodeUID(s[3..]);
      var rest := DecodeUID(s[3..]).value;
      assert DecodeUID(s).value[1..] == rest;
      assert s == s[..2] + ":" + s[3..];
    }
  }

  /** Two cards render to the same identity only if their UIDs are the same bytes. */
  lemma EncodeUIDInjective(a: seq<uint8>, b: seq<uint8>)
    requires EncodeUID(a) == EncodeUID(b)
    ensures a == b
  {
    DecodeEncodeUID(a);
    DecodeEncodeUID(b);
  }

  /** The lower-case text `readCard` appends for one byte: a "0" below 0x10, then `String(b, HEX)`. */
  function LowerHexPiece(b: uint8): string
  {
    (if b < 0x10 then "0" else "") + Digits(b, 16)
  }

  /** Upper-casing the piece of one byte gives its canonical pair. */
  lemma UpperHexPiece(b: uint8)
    ensures ToUpperCase(LowerHexPiece(b)) == HexPair(b)
  {
    if b >= 16 {
      DivMod(b, 16);
      assert Digits(b, 16) == Digits(b / 16, 16) + [DigitChar(b % 16)];
    }
  }

  /** An identity grows at its end one pair at a time. */
  lemma {:induction false} EncodeUIDSnoc(uid: seq<uint8>, b: uint8)
    requires uid != []
    ensures EncodeUID(uid + [b]) == EncodeUID(uid) + ":" + HexPair(b)
    decreases |uid|
  {
    if |uid| > 1 {
      EncodeUIDSnoc(uid[1..], b);
      assert (uid + [b])[1..] == uid[1..] + [b];
    } else {
      assert (uid + [b])[1..] == [b];
    }
  }

  /** Appending the pad and the digits of a byte appends its canonical pair, once upper-cased. */
  lemma UpperPieceAppended(before: string, padded: string, b: uint8)
    requires padded == if b < 0x10 then before + "0" else before
    ensures ToUpperCase(padded + Digits(b, 16)) == ToUpperCase(before) + HexPair(b)
  {
    if b < 0x10 {
      assert before + "0" + Digits(b, 16) == before + ("0" + Digits(b, 16));
    }
    assert padded + Digits(b, 16) == before + LowerHexPiece(b);
    ToUpperCaseAppend(before, LowerHexPiece(b));
    UpperHexPiece(b);
  }

  /** The upper-cased text so far is the identity of the first `i` bytes. */
  lemma EncodedPrefix(uid: seq<uint8>, i: nat, before: string, withPair: string)
    requires i < |uid|
    requires ToUpperCase(before) == EncodeUID(uid[..i]) + (if 0 < i then ":" else "")
    requires ToUpperCase(withPair) == ToUpperCase(before) + HexPair(uid[i])
    ensures ToUpperCase(withPair) == EncodeUID(uid[..i + 1])
  {
    assert uid[..i + 1] == uid[..i] + [uid[i]];
    if i > 0 {
      EncodeUIDSnoc(uid[..i], uid[i]);
    } else {
      assert uid[..i + 1] == [uid[i]];
    }
  }

  /**
   * `readCard`: "" and false when the poll saw no new card or could not read
   * its serial; otherwise the card's identity and true. The loop appends each
   * byte's lower-case hex piece and a separating colon, then upper-cases.
   */
  method ReadCard(poll: Poll) returns (ok: bool, uidOut: string)
    ensures ok <==> poll.CardSerial?
    ensures uidOut == if ok then EncodeUID(poll.uid) else ""
    ensures ok && poll.uid != [] ==> uidOut != ""
  {
    uidOut := "";
    if poll.NoNewCard? {
      return false, uidOut;
    }
    if poll.ReadSerialFailed? {
      return false, uidOut;
    }
    var uid := poll.uid;
    var i := 0;
    while i < |uid|
      invariant 0 <= i <= |uid|
      invariant ToUpperCase(uidOut) == EncodeUID(uid[..i]) + (if 0 < i < |uid| then ":" else "")
    {
      ghost var before := uidOut;
      if uid[i] < 0x10 {
        uidOut := uidOut + "0";
      }
      ghost var padded := uidOut;
      uidOut := uidOut + Digits(uid[i], 16);
      UpperPieceAppended(before, padded, uid[i]);
      EncodedPrefix(uid, i, before, uidOut);
      if i < |uid| - 1 {
        ToUpperCaseAppend(uidOut, ":");
        uidOut := uidOut + ":";
      }
      i := i + 1;
    }
    assert uid[..i] == uid;
    uidOut := ToUpperCase(uidOut);
    ok := true;
  }
}
