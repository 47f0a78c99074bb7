/**
 * Convert.ToBase64String: the base 64 encoding of section 4 of RFC 4648, with '='
 * padding, and the URL-safe rewrite the provisioning service applies to it.
 */
module Base64 {
  import opened Text

  newtype byte = x: int | 0 <= x < 256

  /** The characters of the base 64 alphabet (section 4 of RFC 4648, Table 1). */
  predicate IsAlphabetChar(c: char) {
    ('A' <= c <= 'Z') || ('a' <= c <= 'z') || ('0' <= c <= '9') || c == '+' || c == '/'
  }

  /** The character that encodes the 6-bit value `v`. */
  function Symbol(v: int): (c: char)
    requires 0 <= v < 64
    ensures IsAlphabetChar(c)
  {
    if v < 26 then ('A' as int + v) as char
    else if v < 52 then ('a' as int + (v - 26)) as char
    else if v < 62 then ('0' as int + (v - 52)) as char
    else if v == 62 then '+'
    else '/'
  }

  /** Three bytes as four characters (24 bits as four 6-bit groups). */
  function EncodeGroup(b0: byte, b1: byte, b2: byte): (r: string)
    ensures |r| == 4 && forall i :: 0 <= i < 4 ==> IsAlphabetChar(r[i])
  {
    [Symbol(b0 as int / 4), Symbol((b0 as int % 4) * 16 + b1 as int / 16),
     Symbol((b1 as int % 16) * 4 + b2 as int / 64), Symbol(b2 as int % 64)]
  }

  /** A final group of one or two bytes, padded with '=' to four characters. */
  function EncodeTail(bs: seq<byte>): (r: string)
    requires 1 <= |bs| <= 2
    ensures |r| == 4
    ensures forall i :: 0 <= i < 4 ==> (IsAlphabetChar(r[i]) <==> i <= |bs|)
    ensures forall i :: 0 <= i < 4 ==> (r[i] == '=' <==> i > |bs|)
  {
    var b0 := bs[0] as int;
    if |bs| == 1 then
      [Symbol(b0 / 4), Symbol((b0 % 4) * 16), '=', '=']
    else
      var b1 := bs[1] as int;
      [Symbol(b0 / 4), Symbol((b0 % 4) * 16 + b1 / 16), Symbol((b1 % 16) * 4), '=']
  }

  /** The number of '=' characters that complete the last group of `n` bytes. */
  function PadLength(n: nat): nat {
    (3 - n % 3) % 3
  }

  /** The length of the encoding of `n` bytes. */
  function EncodedLength(n: nat): nat {
    4 * ((n + 2) / 3)
  }

  lemma EncodedLengthStep(n: nat)
    requires n >= 3
    ensures EncodedLength(n) == 4 + EncodedLength(n - 3)
    ensures PadLength(n) == PadLength(n - 3)
  {
  }

  /**
   * Base 64 encoding: every 3 input bytes become 4 characters; a final group of
   * 1 or 2 bytes becomes 2 or 3 characters followed by '=' up to 4, so '=' occurs
   * exactly in the last `PadLength` positions.
   */
  function Encode(bs: seq<byte>): (r: string)
    ensures |r| == EncodedLength(|bs|)
    ensures forall i :: 0 <= i < |r| ==> IsAlphabetChar(r[i]) || r[i] == '='
    ensures forall i :: 0 <= i < |r| ==> (r[i] == '=' <==> i >= |r| - PadLength(|bs|))
    decreases |bs|
  {
    if |bs| == 0 then ""
    else if |bs| <= 2 then EncodeTail(bs)
    else
      var group := EncodeGroup(bs[0], bs[1], bs[2]);
      var rest := Encode(bs[3..]);
      EncodedLengthStep(|bs|);
      group + rest
  }

  /** The URL-safe alphabet of section 5 of RFC 4648, without padding. */
  predicate IsUrlSafeChar(c: char) {
    ('A' <= c <= 'Z') || ('a' <= c <= 'z') || ('0' <= c <= '9') || c == '-' || c == '_'
  }

  /** `ToBase64String(bs).Replace("+", "-").Replace("/", "_").Replace("=", "")`. */
  function UrlSafeEncode(bs: seq<byte>): (r: string)
    ensures forall i :: 0 <= i < |r| ==> IsUrlSafeChar(r[i])
    ensures |r| == EncodedLength(|bs|) - PadLength(|bs|)
  {
    var e := Encode(bs);
    var slashFree := ReplaceChar(ReplaceChar(e, '+', '-'), '/', '_');
    UnpaddedCount(slashFree, |e| - PadLength(|bs|));
    RemoveChar(slashFree, '=')
  }

  /** A string whose '=' characters are exactly those from position `k` on holds |s| - k of them. */
  lemma UnpaddedCount(s: string, k: nat)
    requires k <= |s|
    requires forall i :: 0 <= i < |s| ==> (s[i] == '=' <==> i >= k)
    ensures multiset(s)['='] == |s| - k
  {
    assert s == s[..k] + s[k..];
    assert '=' !in s[..k];
    CountOfRepeated(s[k..], '=');
  }

  /** 32 random bytes give a URL-safe string of 43 characters. */
  lemma UrlSafeLengthOf32(bs: seq<byte>)
    requires |bs| == 32
    ensures |UrlSafeEncode(bs)| == 43
  {
    assert EncodedLength(32) == 44 && PadLength(32) == 1;
  }
}
