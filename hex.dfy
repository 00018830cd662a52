/**
 * Lower-case hexadecimal rendering of digests: the nibble loop in `md5`
 * (ngx_http_hi_module.cpp, lines 740-748), also what `ngx_hex_dump` produces
 * for the cache key.
 */
module Hex {
  import opened Base

  const Digits: string := "0123456789abcdef"

  predicate IsHexChar(c: char)
  {
    '0' <= c <= '9' || 'a' <= c <= 'f'
  }

  function HexChar(n: int): (c: char)
    requires 0 <= n < 16
    ensures IsHexChar(c)
  {
    if n < 10 then ('0' as int + n) as char else ('a' as int + n - 10) as char
  }

  /** The lookup table `hex[]` of line 741 holds exactly these characters. */
  lemma DigitsTable(n: int)
    requires 0 <= n < 16
    ensures Digits[n] == HexChar(n)
  {
  }

  /** The nibble a lower-case hex character stands for. */
  function Nibble(c: char): (n: int)
    requires IsHexChar(c)
    ensures 0 <= n < 16 && HexChar(n) == c
  {
    if '0' <= c <= '9' then c as int - '0' as int else c as int - 'a' as int + 10
  }

  /** Two characters per byte, high nibble first. */
  function Encode(d: seq<byte>): (s: string)
    ensures |s| == 2 * |d|
    ensures forall i :: 0 <= i < |s| ==> IsHexChar(s[i])
  {
    if d == [] then []
    else [HexChar(d[0] as int / 16), HexChar(d[0] as int % 16)] + Encode(d[1..])
  }

  predicate IsHexText(s: string)
  {
    |s| % 2 == 0 && forall i :: 0 <= i < |s| ==> IsHexChar(s[i])
  }

  /** The inverse reading: each pair of characters back to one byte. */
  function Decode(s: string): (d: seq<byte>)
    requires IsHexText(s)
    ensures 2 * |d| == |s|
  {
    if s == [] then []
    else [(16 * Nibble(s[0]) + Nibble(s[1])) as byte] + Decode(s[2..])
  }

  /** Character `2k` is the high nibble of byte `k`, character `2k+1` its low nibble. */
  lemma {:induction false} EncodeAt(d: seq<byte>, k: nat)
    requires k < |d|
    ensures Encode(d)[2 * k] == HexChar(d[k] as int / 16)
    ensures Encode(d)[2 * k + 1] == HexChar(d[k] as int % 16)
  {
    if k > 0 {
      EncodeAt(d[1..], k - 1);
    }
  }

  /** Decoding an encoding gives the digest back. */
  lemma {:induction false} DecodeEncode(d: seq<byte>)
    ensures IsHexText(Encode(d)) && Decode(Encode(d)) == d
  {
    if d != [] {
      var s := Encode(d);
      var b := d[0] as int;
      var hi, lo := b / 16, b % 16;
      assert s[2..] == Encode(d[1..]);
      DecodeEncode(d[1..]);
      assert Nibble(s[0]) == hi && Nibble(s[1]) == lo;
      assert 16 * hi + lo == b;
    }
  }

  /** Different digests never render to the same text. */
  lemma EncodeInjective(a: seq<byte>, b: seq<byte>)
    requires Encode(a) == Encode(b)
    ensures a == b
  {
    DecodeEncode(a);
    DecodeEncode(b);
  }

  /** A 16-byte digest always renders to 32 lower-case hex characters. */
  lemma DigestText(d: Digest)
    ensures |Encode(d)| == 32 && IsHexText(Encode(d))
  {
  }

  /** The byte loop of lines 740-748: writes two characters per source byte into a buffer. */
  method HexDump(src: seq<byte>) returns (s: string)
    ensures s == Encode(src)
  {
    var tmp := new char[2 * |src|];
    var i := 0;
    while i < |src|
      invariant 0 <= i <= |src|
      invariant forall k :: 0 <= k < i ==>
        tmp[2 * k] == HexChar(src[k] as int / 16) && tmp[2 * k + 1] == HexChar(src[k] as int % 16)
    {
      DigitsTable(src[i] as int / 16);
      DigitsTable(src[i] as int % 16);
      tmp[2 * i] := Digits[src[i] as int / 16];
      tmp[2 * i + 1] := Digits[src[i] as int % 16];
      i := i + 1;
    }
    s := tmp[..];
    forall j | 0 <= j < |s|
      ensures s[j] == Encode(src)[j]
    {
      EncodeAt(src, j / 2);
    }
  }
}
