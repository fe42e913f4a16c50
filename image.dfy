/// The program image format: a headerless sequence of 16-bit words, each
/// stored as two bytes, low byte first. An odd trailing byte belongs to no
/// word.
module Image {
  import opened Word16

  /** The word whose low byte is `lo` and high byte is `hi`
      (`(hi as u16) << 8 | lo as u16`; the shifted byte has its low eight
      bits clear, so the OR is an addition). */
  function LittleEndian(lo: u8, hi: u8): (w: u16)
    ensures w % 0x100 == lo && w / 0x100 == hi
  {
    hi * 0x100 + lo
  }

  /** The words of an image: one per complete pair of bytes. */
  function Decode(bytes: seq<u8>): (words: seq<u16>)
    ensures |words| == |bytes| / 2
    ensures forall i :: 0 <= i < |words| ==> words[i] == LittleEndian(bytes[2 * i], bytes[2 * i + 1])
  {
    if |bytes| < 2 then []
    else [LittleEndian(bytes[0], bytes[1])] + Decode(bytes[2..])
  }

  /** The image of a sequence of words: each word as its low byte followed
      by its high byte. */
  function Encode(words: seq<u16>): (bytes: seq<u8>)
    ensures |bytes| == 2 * |words|
  {
    if words == [] then []
    else [words[0] % 0x100, words[0] / 0x100] + Encode(words[1..])
  }

  /** Decoding an encoded image gives back the words. */
  lemma {:induction false} DecodeEncode(words: seq<u16>)
    ensures Decode(Encode(words)) == words
  {
    if words != [] {
      DecodeEncode(words[1..]);
      var bytes := Encode(words);
      assert bytes[2..] == Encode(words[1..]);
    }
  }

  /** Encoding the decoded words gives back the image, without its odd
      trailing byte if it has one. */
  lemma {:induction false} EncodeDecode(bytes: seq<u8>)
    ensures Encode(Decode(bytes)) == bytes[..|bytes| / 2 * 2]
  {
    if |bytes| >= 2 {
      EncodeDecode(bytes[2..]);
      var words := Decode(bytes);
      assert words[1..] == Decode(bytes[2..]);
      assert bytes[..|bytes| / 2 * 2] == bytes[..2] + bytes[2..][..|bytes[2..]| / 2 * 2];
    }
  }
}
