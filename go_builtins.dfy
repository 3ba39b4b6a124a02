/** Go's built-in operations on strings and byte slices that the credential
    handling of the MSSQL request harness relies on: the conversion
    `[]byte(s)` of a string to its bytes and the built-in `copy`. */
module GoBuiltins {

  /** One Go byte. */
  type byte = bv8

  /** A UTF-8 continuation byte carrying the low six bits of `n`. */
  function Continuation(n: nat): (b: byte)
    ensures 0x80 <= b < 0xC0
  {
    var low := n % 0x40;
    (0x80 + low) as byte
  }

  /** A UTF-8 lead byte: the length marker `marker` plus the high bits `high`. */
  function Lead(marker: nat, high: nat): (b: byte)
    requires marker in {0xC0, 0xE0, 0xF0} && high < 0x100 - marker
    ensures b >= 0xC0
  {
    (marker + high) as byte
  }

  /** A sequence of bytes that starts with a lead byte and goes on with
      continuation bytes, as every multi-byte UTF-8 sequence does. */
  predicate IsMultiByte(b: seq<byte>)
  {
    |b| > 1 && b[0] >= 0xC0 && forall i :: 1 <= i < |b| ==> 0x80 <= b[i] < 0xC0
  }

  /** The two-byte encoding of a code point in [0x80, 0x800). */
  function EncodeTwo(n: nat): (b: seq<byte>)
    requires 0x80 <= n < 0x800
    ensures |b| == 2 && IsMultiByte(b)
  {
    assert n / 0x40 < 0x20;
    [Lead(0xC0, n / 0x40), Continuation(n)]
  }

  /** The three-byte encoding of a code point in [0x800, 0x10000). */
  function EncodeThree(n: nat): (b: seq<byte>)
    requires 0x800 <= n < 0x1_0000
    ensures |b| == 3 && IsMultiByte(b)
  {
    assert n / 0x1000 < 0x10;
    [Lead(0xE0, n / 0x1000), Continuation(n / 0x40), Continuation(n)]
  }

  /** The four-byte encoding of a code point in [0x10000, 0x110000). */
  function EncodeFour(n: nat): (b: seq<byte>)
    requires 0x1_0000 <= n < 0x11_0000
    ensures |b| == 4 && IsMultiByte(b)
  {
    assert n / 0x4_0000 < 0x5;
    [Lead(0xF0, n / 0x4_0000), Continuation(n / 0x1000), Continuation(n / 0x40), Continuation(n)]
  }

  /** The UTF-8 bytes of one Unicode scalar value. */
  function EncodeRune(c: char): (b: seq<byte>)
    ensures 1 <= |b| <= 4
    ensures |b| == 1 <==> c as int < 0x80
    ensures |b| == 1 ==> b[0] as int == c as int
    ensures |b| > 1 ==> IsMultiByte(b)
  {
    var n: nat := c as int;
    if n < 0x80 then [n as byte]
    else if n < 0x800 then EncodeTwo(n)
    else if n < 0x1_0000 then EncodeThree(n)
    else EncodeFour(n)
  }

  /** `[]byte(s)`: a Go string holds the UTF-8 encoding of its text, and the
      conversion yields those bytes in order. */
  function Utf8Encode(s: string): (b: seq<byte>)
    ensures |s| <= |b| <= 4 * |s|
    ensures s == [] <==> b == []
  {
    if s == [] then [] else EncodeRune(s[0]) + Utf8Encode(s[1..])
  }

  /** Text made only of ASCII characters. */
  predicate IsAscii(s: string)
  {
    forall i :: 0 <= i < |s| ==> s[i] as int < 0x80
  }

  /** An ASCII string, such as a loopback address or a decimal port number,
      converts to exactly one byte per character, each the character's code. */
  lemma {:induction false} AsciiEncodesBytewise(s: string)
    requires IsAscii(s)
    ensures |Utf8Encode(s)| == |s|
    ensures forall i :: 0 <= i < |s| ==> Utf8Encode(s)[i] as int == s[i] as int
  {
    if s != [] {
      assert s[0] as int < 0x80;
      AsciiEncodesBytewise(s[1..]);
      forall i | 1 <= i < |s|
        ensures Utf8Encode(s)[i] as int == s[i] as int
      {
        assert s[1..][i - 1] == s[i];
      }
    }
  }

  /** Go's built-in `copy(dst, src)`: copies the first `min(len(dst), len(src))`
      bytes of `src` into `dst`, leaves the rest of `dst` alone and returns the
      number copied. `dst` and `src` may be the same buffer. */
  method CopyBytes(dst: array<byte>, src: array<byte>) returns (n: nat)
    modifies dst
    ensures n == if dst.Length < src.Length then dst.Length else src.Length
    ensures dst[..n] == old(src[..n])
    ensures dst[n..] == old(dst[n..])
  {
    n := if dst.Length < src.Length then dst.Length else src.Length;
    var i := 0;
    while i < n
      invariant 0 <= i <= n
      invariant forall j :: 0 <= j < i ==> dst[j] == old(src[j])
      invariant forall j :: i <= j < src.Length ==> src[j] == old(src[j])
      invariant forall j :: i <= j < dst.Length ==> dst[j] == old(dst[j])
    {
      dst[i] := src[i];
      i := i + 1;
    }
  }
}
