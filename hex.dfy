/**
  Lower-case hexadecimal encoding of a byte string, as produced by Node's
  `Buffer.toString('hex')` for the reset token (routes/user.js, line 81),
  together with its decoding, which shows the encoding loses nothing.
*/
module Hex {
  import opened Wrappers

  newtype byte = b: int | 0 <= b < 256

  /** The characters `Buffer.toString('hex')` can produce. */
  predicate IsLowerHex(c: char) {
    '0' <= c <= '9' || 'a' <= c <= 'f'
  }

  /** The digit for a nibble. */
  function HexChar(n: int): (c: char)
    requires 0 <= n < 16
    ensures IsLowerHex(c)
  {
    if n < 10 then ('0' as int + n) as char else ('a' as int + n - 10) as char
  }

  /** The nibble a digit stands for; upper-case and other characters are refused. */
  function DigitValue(c: char): (r: Option<int>)
    ensures r.Some? <==> IsLowerHex(c)
    ensures r.Some? ==> 0 <= r.value < 16 && HexChar(r.value) == c
  {
    if '0' <= c <= '9' then Some(c as int - '0' as int)
    else if 'a' <= c <= 'f' then Some(c as int - 'a' as int + 10)
    else None
  }

  /** Two digits per byte, high nibble first. */
  function Hex(bytes: seq<byte>): (s: string)
    ensures |s| == 2 * |bytes|
    ensures forall i :: 0 <= i < |s| ==> IsLowerHex(s[i])
  {
    if bytes == [] then ""
    else [HexChar(bytes[0] as int / 16), HexChar(bytes[0] as int % 16)] + Hex(bytes[1..])
  }

  /** Decoding: `None` on an odd length or a character that is not a lower-case digit. */
  function Unhex(s: string): (r: Option<seq<byte>>)
    ensures r.Some? ==> 2 * |r.value| == |s|
  {
    if s == [] then Some([])
    else if |s| == 1 then None
    else
      var hi, lo, rest := DigitValue(s[0]), DigitValue(s[1]), Unhex(s[2..]);
      if hi.None? || lo.None? || rest.None? then None
      else Some([(hi.value * 16 + lo.value) as byte] + rest.value)
  }

  lemma {:induction false} UnhexHex(bytes: seq<byte>)
    ensures Unhex(Hex(bytes)) == Some(bytes)
  {
    if bytes != [] {
      var b := bytes[0] as int;
      var s := Hex(bytes);
      assert s[2..] == Hex(bytes[1..]);
      assert DigitValue(s[0]) == Some(b / 16);
      assert DigitValue(s[1]) == Some(b % 16);
      UnhexHex(bytes[1..]);
      assert bytes == [bytes[0]] + bytes[1..];
    }
  }

  /** Distinct random buffers give distinct tokens. */
  lemma HexInjective(a: seq<byte>, b: seq<byte>)
    ensures Hex(a) == Hex(b) ==> a == b
  {
    UnhexHex(a);
    UnhexHex(b);
  }

  /**
    The reset token: `crypto.randomBytes(20)` rendered in hex
    (routes/user.js, lines 80-81), hence 40 lower-case hex digits that
    decode back to the random bytes.
  */
  function ResetToken(bytes: seq<byte>): (token: string)
    requires |bytes| == 20
    ensures |token| == 40
    ensures forall i :: 0 <= i < |token| ==> IsLowerHex(token[i])
    ensures Unhex(token) == Some(bytes)
  {
    UnhexHex(bytes);
    Hex(bytes)
  }
}
