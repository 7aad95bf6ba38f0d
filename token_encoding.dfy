/** The VoIP device token as the delegate forwards it: every credential byte
    formatted with `%02x` (two lower-case hexadecimal digits, zero-padded) and
    the pieces joined in order. `Decode` is the inverse used to state what the
    encoding preserves; the application itself never decodes. */
module TokenEncoding {

  /** One byte of `PKPushCredentials.token` (Swift `UInt8`). */
  type byte = x: int | 0 <= x < 256

  datatype Option<T> = None | Some(value: T)

  /** The characters `%x` produces: `0`-`9` and lower-case `a`-`f`. */
  predicate IsHexDigit(c: char) {
    ('0' <= c <= '9') || ('a' <= c <= 'f')
  }

  /** The lower-case hexadecimal digit for a nibble. */
  function HexDigit(n: nat): (c: char)
    requires n < 16
    ensures IsHexDigit(c)
  {
    if n < 10 then ('0' as int + n) as char else ('a' as int + (n - 10)) as char
  }

  /** The nibble a hexadecimal digit stands for; inverse of `HexDigit`. */
  function DigitValue(c: char): (n: nat)
    requires IsHexDigit(c)
    ensures n < 16 && HexDigit(n) == c
  {
    if c <= '9' then c as int - '0' as int else c as int - 'a' as int + 10
  }

  /** `String(format: "%02x", b)`: exactly two digits, high nibble first, so a
      byte below 16 gets a leading `0`. */
  function ByteToHex(b: byte): (s: string)
    ensures |s| == 2 && IsHexDigit(s[0]) && IsHexDigit(s[1])
    ensures DigitValue(s[0]) * 16 + DigitValue(s[1]) == b
    ensures b < 16 <==> s[0] == '0'
  {
    [HexDigit(b / 16), HexDigit(b % 16)]
  }

  /** `token.map { String(format: "%02x", $0) }.joined()`. */
  function Encode(token: seq<byte>): (s: string)
    ensures |s| == 2 * |token|
    ensures forall i :: 0 <= i < |s| ==> IsHexDigit(s[i])
  {
    if token == [] then "" else ByteToHex(token[0]) + Encode(token[1..])
  }

  /** Reads a string of lower-case hex digit pairs back into bytes; `None` for
      an odd length or any other character. */
  function Decode(s: string): (r: Option<seq<byte>>)
    ensures r.Some? <==> |s| % 2 == 0 && forall i :: 0 <= i < |s| ==> IsHexDigit(s[i])
    ensures r.Some? ==> 2 * |r.value| == |s|
    decreases |s|
  {
    if |s| == 0 then Some([])
    else if |s| == 1 then None
    else if !IsHexDigit(s[0]) || !IsHexDigit(s[1]) then None
    else
      match Decode(s[2..])
      case None => None
      case Some(rest) => Some([DigitValue(s[0]) * 16 + DigitValue(s[1])] + rest)
  }

  /** Encoding distributes over concatenation of the credential bytes. */
  lemma {:induction false} EncodeAppend(a: seq<byte>, b: seq<byte>)
    ensures Encode(a + b) == Encode(a) + Encode(b)
  {
    if a == [] {
      assert a + b == b;
    } else {
      assert (a + b)[1..] == a[1..] + b;
      EncodeAppend(a[1..], b);
    }
  }

  /** Byte `i` of the token occupies characters `2i` and `2i+1` of the string. */
  lemma {:induction false} EncodeAt(token: seq<byte>, i: nat)
    requires i < |token|
    ensures Encode(token)[2 * i .. 2 * i + 2] == ByteToHex(token[i])
  {
    if i > 0 {
      EncodeAt(token[1..], i - 1);
      assert Encode(token) == ByteToHex(token[0]) + Encode(token[1..]);
      assert Encode(token)[2 * i .. 2 * i + 2] == Encode(token[1..])[2 * (i - 1) .. 2 * (i - 1) + 2];
    }
  }

  /** Decoding the forwarded token gives back the credential bytes. */
  lemma {:induction false} DecodeEncode(token: seq<byte>)
    ensures Decode(Encode(token)) == Some(token)
  {
    if token != [] {
      var s := Encode(token);
      var h := ByteToHex(token[0]);
      assert s[..2] == h && s[2..] == Encode(token[1..]);
      DecodeEncode(token[1..]);
      assert s[0] == h[0] && s[1] == h[1];
      assert DigitValue(s[0]) * 16 + DigitValue(s[1]) == token[0];
      assert [token[0]] + token[1..] == token;
    }
  }

  /** Nibble arithmetic behind `EncodeDecode`. */
  lemma ByteToHexOfDigits(c0: char, c1: char)
    requires IsHexDigit(c0) && IsHexDigit(c1)
    ensures ByteToHex(DigitValue(c0) * 16 + DigitValue(c1)) == [c0, c1]
  {
  }

  /** Every string `Decode` accepts is exactly the encoding of what it returns,
      so the strings `Encode` produces are the well-formed ones, no more. */
  lemma {:induction false} EncodeDecode(s: string)
    requires Decode(s).Some?
    ensures Encode(Decode(s).value) == s
    decreases |s|
  {
    if |s| > 0 {
      EncodeDecode(s[2..]);
      ByteToHexOfDigits(s[0], s[1]);
      var bytes := Decode(s).value;
      assert bytes[1..] == Decode(s[2..]).value;
      assert s == [s[0], s[1]] + s[2..];
    }
  }

  /** Different credentials are never forwarded as the same string. */
  lemma EncodeInjective(a: seq<byte>, b: seq<byte>)
    requires Encode(a) == Encode(b)
    ensures a == b
  {
    DecodeEncode(a);
    DecodeEncode(b);
  }
}
