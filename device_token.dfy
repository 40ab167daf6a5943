/**
  The VoIP device token as the plugin reports it: the bytes PushKit hands over,
  rendered as lowercase hexadecimal, two digits per byte, and the `token`
  getter that prefers the persisted token over PushKit's cached one.
 */
module DeviceToken {
  import opened Wrappers

  newtype byte = x: int | 0 <= x < 256

  const HexDigits: string := "0123456789abcdef"

  /** The characters `%.2hhx` can produce. */
  predicate IsLowerHexDigit(c: char) {
    '0' <= c <= '9' || 'a' <= c <= 'f'
  }

  predicate IsLowerHex(s: string) {
    forall i :: 0 <= i < |s| ==> IsLowerHexDigit(s[i])
  }

  /** The value of one lowercase hexadecimal digit; None for any other character. */
  function DigitValue(c: char): (r: Option<int>)
    ensures r.Some? <==> IsLowerHexDigit(c)
    ensures r.Some? ==> 0 <= r.value < 16 && HexDigits[r.value] == c
  {
    if '0' <= c <= '9' then Some(c as int - '0' as int)
    else if 'a' <= c <= 'f' then Some(c as int - 'a' as int + 10)
    else None
  }

  /** One byte formatted with `%.2hhx`: high nibble, then low nibble, zero-padded. */
  function ByteToHex(b: byte): (s: string)
    ensures |s| == 2 && IsLowerHex(s)
    ensures DigitValue(s[0]) == Some(b as int / 16) && DigitValue(s[1]) == Some(b as int % 16)
  {
    [HexDigits[b as int / 16], HexDigits[b as int % 16]]
  }

  /** `String(deviceToken:)`: every byte mapped to its two digits, the pieces joined in order. */
  function Encode(bytes: seq<byte>): (s: string)
    ensures |s| == 2 * |bytes|
    ensures IsLowerHex(s)
  {
    if |bytes| == 0 then "" else ByteToHex(bytes[0]) + Encode(bytes[1..])
  }

  /** The inverse reading: pairs of lowercase hex digits back to bytes. */
  function Decode(s: string): (r: Option<seq<byte>>)
    ensures r.Some? ==> 2 * |r.value| == |s|
    ensures r.Some? <==> |s| % 2 == 0 && IsLowerHex(s)
    decreases |s|
  {
    if |s| == 0 then Some([])
    else if |s| == 1 then None
    else match (DigitValue(s[0]), DigitValue(s[1]), Decode(s[2..]))
      case (Some(hi), Some(lo), Some(rest)) => Some([(hi * 16 + lo) as byte] + rest)
      case _ => None
  }

  /** Joining distributes over concatenation of the byte sequences. */
  lemma {:induction false} EncodeAppend(a: seq<byte>, b: seq<byte>)
    ensures Encode(a + b) == Encode(a) + Encode(b)
  {
    if |a| == 0 {
      assert a + b == b;
    } else {
      assert (a + b)[1..] == a[1..] + b;
      EncodeAppend(a[1..], b);
    }
  }

  /** Byte `i` of the token is rendered at characters `2i` and `2i+1` of the string. */
  lemma {:induction false} EncodeAt(bytes: seq<byte>, i: nat)
    requires i < |bytes|
    ensures Encode(bytes)[2 * i .. 2 * i + 2] == ByteToHex(bytes[i])
  {
    if i > 0 {
      EncodeAt(bytes[1..], i - 1);
      var rest := Encode(bytes[1..]);
      assert Encode(bytes) == ByteToHex(bytes[0]) + rest;
      assert Encode(bytes)[2 * i .. 2 * i + 2] == rest[2 * (i - 1) .. 2 * (i - 1) + 2];
    }
  }

  /** Decoding the rendering gives back exactly the token bytes. */
  lemma {:induction false} DecodeEncode(bytes: seq<byte>)
    ensures Decode(Encode(bytes)) == Some(bytes)
  {
    if |bytes| > 0 {
      var s := Encode(bytes);
      var h := ByteToHex(bytes[0]);
      assert s == h + Encode(bytes[1..]);
      assert s[2..] == Encode(bytes[1..]);
      DecodeEncode(bytes[1..]);
      var b := bytes[0] as int;
      assert (b / 16) * 16 + b % 16 == b;
      assert [bytes[0]] + bytes[1..] == bytes;
    }
  }

  /** A byte built from two nibbles splits back into the same two nibbles. */
  lemma Nibbles(hi: int, lo: int)
    requires 0 <= hi < 16 && 0 <= lo < 16
    ensures (hi * 16 + lo) / 16 == hi && (hi * 16 + lo) % 16 == lo
  {
  }

  /** Only renderings decode: a string that decodes is the encoding of what it decodes to. */
  lemma {:induction false} EncodeDecode(s: string)
    requires Decode(s).Some?
    ensures Encode(Decode(s).value) == s
    decreases |s|
  {
    if |s| > 0 {
      var bytes := Decode(s).value;
      var hi, lo := DigitValue(s[0]).value, DigitValue(s[1]).value;
      var rest := Decode(s[2..]).value;
      assert bytes == [(hi * 16 + lo) as byte] + rest;
      EncodeDecode(s[2..]);
      Nibbles(hi, lo);
      var b := bytes[0];
      assert b as int == hi * 16 + lo;
      assert ByteToHex(b) == [HexDigits[hi], HexDigits[lo]] == s[..2];
      assert bytes[1..] == rest;
      calc {
        Encode(bytes);
        ByteToHex(b) + Encode(rest);
        s[..2] + s[2..];
        s;
      }
    }
  }

  /** Different tokens are never rendered as the same string. */
  lemma EncodeInjective(a: seq<byte>, b: seq<byte>)
    requires Encode(a) == Encode(b)
    ensures a == b
  {
    DecodeEncode(a);
    DecodeEncode(b);
  }

  /**
    The `token` getter: the token persisted in user defaults wins, else the
    token PushKit has cached for the VoIP push type, else nil.
   */
  function Token(stored: Option<seq<byte>>, cached: Option<seq<byte>>): (r: Option<string>)
    ensures r.Some? <==> stored.Some? || cached.Some?
    ensures stored.Some? ==> r == Some(Encode(stored.value))
    ensures stored.None? && cached.Some? ==> r == Some(Encode(cached.value))
  {
    match stored
    case Some(bytes) => Some(Encode(bytes))
    case None =>
      match cached
      case Some(bytes) => Some(Encode(bytes))
      case None => None
  }

  /** The reported token always decodes to the bytes of the source that won. */
  lemma TokenDecodes(stored: Option<seq<byte>>, cached: Option<seq<byte>>)
    requires Token(stored, cached).Some?
    ensures Decode(Token(stored, cached).value)
         == (if stored.Some? then stored else cached)
  {
    if stored.Some? { DecodeEncode(stored.value); } else { DecodeEncode(cached.value); }
  }
}
