/**
 * Base 64 encoding with the standard alphabet and `=` padding (section 4
 * of RFC 4648), which `java.util.Base64.getEncoder()` implements. The
 * secret's values are stored in this form.
 */
module Base64 {

  type byte = x: int | 0 <= x < 256

  /** The 64 characters of the alphabet: A-Z, a-z, 0-9, '+' and '/'. */
  predicate InAlphabet(c: char) {
    ('A' <= c <= 'Z') || ('a' <= c <= 'z') || ('0' <= c <= '9') || c == '+' || c == '/'
  }

  /** A 6-bit value as its alphabet character: A-Z, a-z, 0-9, '+', '/'. */
  function CharOf(i: int): (c: char)
    requires 0 <= i < 64
  {
    if i < 26 then ('A' as int + i) as char
    else if i < 52 then ('a' as int + i - 26) as char
    else if i < 62 then ('0' as int + i - 52) as char
    else if i == 62 then '+'
    else '/'
  }

  /** The 6-bit value of an alphabet character (0 for anything else, such as padding). */
  function IndexOf(c: char): (i: int)
    ensures 0 <= i < 64
  {
    if 'A' <= c <= 'Z' then c as int - 'A' as int
    else if 'a' <= c <= 'z' then c as int - 'a' as int + 26
    else if '0' <= c <= '9' then c as int - '0' as int + 52
    else if c == '+' then 62
    else if c == '/' then 63
    else 0
  }

  lemma CharOfInAlphabet(i: int)
    requires 0 <= i < 64
    ensures InAlphabet(CharOf(i))
  {
  }

  lemma IndexOfCharOf(i: int)
    requires 0 <= i < 64
    ensures IndexOf(CharOf(i)) == i && CharOf(i) != '='
  {
  }

  /** One group of one to three input bytes as four output characters, padded with '='. */
  function EncodeGroup(b: seq<byte>): (r: string)
    requires 1 <= |b| <= 3
    ensures |r| == 4
  {
    var b1 := if |b| > 1 then b[1] else 0;
    var b2 := if |b| > 2 then b[2] else 0;
    [CharOf(b[0] / 4), CharOf((b[0] % 4) * 16 + b1 / 16)]
    + (if |b| > 1 then [CharOf((b1 % 16) * 4 + b2 / 64)] else ['='])
    + (if |b| > 2 then [CharOf(b2 % 64)] else ['='])
  }

  /** The encoding: four characters for every three bytes, the last group padded. */
  function Encode(b: seq<byte>): (r: string)
    ensures |r| == 4 * ((|b| + 2) / 3) && |r| % 4 == 0
    decreases |b|
  {
    GroupCount(|b|);
    if |b| == 0 then ""
    else if |b| <= 3 then EncodeGroup(b)
    else EncodeGroup(b[..3]) + Encode(b[3..])
  }

  /** The number of '=' characters that pad the encoding of n bytes. */
  function Padding(n: nat): (p: nat)
    ensures p <= 2 && (n % 3 == 0 <==> p == 0)
  {
    (3 - n % 3) % 3
  }

  /** Three more bytes need no more padding. */
  lemma PaddingStep(n: nat)
    requires n >= 3
    ensures Padding(n) == Padding(n - 3)
  {
    assert n % 3 == (n - 3) % 3;
  }

  /**
   * Every character of r is from the alphabet, except the last pad, which
   * are all '='.
   */
  predicate PaddedAlphabet(r: string, pad: nat) {
    forall i :: 0 <= i < |r| ==> if i < |r| - pad then InAlphabet(r[i]) else r[i] == '='
  }

  /** The encoding is alphabet characters followed by exactly Padding(|b|) '=' characters. */
  lemma {:induction false} EncodeAlphabet(b: seq<byte>)
    ensures PaddedAlphabet(Encode(b), Padding(|b|))
    decreases |b|
  {
    if |b| == 0 {
    } else if |b| <= 3 {
      assert Encode(b) == EncodeGroup(b);
      EncodeGroupAlphabet(b);
    } else {
      var head, tail := EncodeGroup(b[..3]), Encode(b[3..]);
      assert Encode(b) == head + tail;
      EncodeAlphabet(b[3..]);
      EncodeGroupAlphabet(b[..3]);
      PaddingStep(|b|);
      PaddedAlphabetAppend(head, tail, Padding(|b|));
    }
  }

  /** A group is alphabet characters, padded with '=' up to four. */
  lemma EncodeGroupAlphabet(b: seq<byte>)
    requires 1 <= |b| <= 3
    ensures PaddedAlphabet(EncodeGroup(b), Padding(|b|))
  {
    var b1 := if |b| > 1 then b[1] else 0;
    var b2 := if |b| > 2 then b[2] else 0;
    CharOfInAlphabet(b[0] / 4);
    CharOfInAlphabet((b[0] % 4) * 16 + b1 / 16);
    CharOfInAlphabet((b1 % 16) * 4 + b2 / 64);
    CharOfInAlphabet(b2 % 64);
  }

  /** An unpadded group followed by a padded encoding is padded the same way. */
  lemma PaddedAlphabetAppend(head: string, tail: string, pad: nat)
    requires |tail| >= pad && PaddedAlphabet(head, 0) && PaddedAlphabet(tail, pad)
    ensures PaddedAlphabet(head + tail, pad)
  {
    var r := head + tail;
    forall i | 0 <= i < |r|
      ensures if i < |r| - pad then InAlphabet(r[i]) else r[i] == '='
    {
      if i < |head| {
        assert r[i] == head[i];
      } else {
        assert r[i] == tail[i - |head|];
      }
    }
  }

  /** The number of output groups: one per three bytes, rounding up. */
  lemma GroupCount(n: nat)
    ensures 1 <= n <= 3 ==> (n + 2) / 3 == 1
    ensures n > 3 ==> (n + 2) / 3 == (n - 3 + 2) / 3 + 1
    ensures (4 * ((n + 2) / 3)) % 4 == 0
  {
  }

  /** Four characters back to the one to three bytes they carry. */
  function DecodeGroup(s: string): (r: seq<byte>)
    requires |s| == 4
  {
    var n0, n1, n2, n3 := IndexOf(s[0]), IndexOf(s[1]), IndexOf(s[2]), IndexOf(s[3]);
    var b0 := n0 * 4 + n1 / 16;
    var b1 := (n1 % 16) * 16 + n2 / 4;
    var b2 := (n2 % 4) * 64 + n3;
    if s[2] == '=' then [b0] else if s[3] == '=' then [b0, b1] else [b0, b1, b2]
  }

  /** The reference decoder, group by group. */
  function Decode(s: string): (r: seq<byte>)
    requires |s| % 4 == 0
    decreases |s|
  {
    if |s| == 0 then [] else DecodeGroup(s[..4]) + Decode(s[4..])
  }

  /** A 6-bit value packed from two fields splits back into them. */
  lemma Unpack(hi: int, lo: int, k: int)
    requires k == 4 || k == 16
    requires 0 <= hi && 0 <= lo < k
    ensures (hi * k + lo) / k == hi && (hi * k + lo) % k == lo
  {
  }

  /** Three bytes cut into four 6-bit values and packed back again are unchanged. */
  lemma Regroup(b0: byte, b1: byte, b2: byte)
    ensures 0 <= b0 / 4 < 64 && 0 <= (b0 % 4) * 16 + b1 / 16 < 64
    ensures 0 <= (b1 % 16) * 4 + b2 / 64 < 64 && 0 <= b2 % 64 < 64
    ensures (b0 / 4) * 4 + ((b0 % 4) * 16 + b1 / 16) / 16 == b0
    ensures (((b0 % 4) * 16 + b1 / 16) % 16) * 16 + ((b1 % 16) * 4 + b2 / 64) / 4 == b1
    ensures (((b1 % 16) * 4 + b2 / 64) % 4) * 64 + b2 % 64 == b2
  {
    Unpack(b0 % 4, b1 / 16, 16);
    Unpack(b1 % 16, b2 / 64, 4);
  }

  lemma DecodeEncodeGroup(b: seq<byte>)
    requires 1 <= |b| <= 3
    ensures DecodeGroup(EncodeGroup(b)) == b
  {
    var b1 := if |b| > 1 then b[1] else 0;
    var b2 := if |b| > 2 then b[2] else 0;
    var n0, n1, n2, n3 := b[0] / 4, (b[0] % 4) * 16 + b1 / 16, (b1 % 16) * 4 + b2 / 64, b2 % 64;
    Regroup(b[0], b1, b2);
    IndexOfCharOf(n0);
    IndexOfCharOf(n1);
    IndexOfCharOf(n2);
    IndexOfCharOf(n3);
    var s := EncodeGroup(b);
    assert s[0] == CharOf(n0) && s[1] == CharOf(n1);
    assert s[2] == if |b| > 1 then CharOf(n2) else '=';
    assert s[3] == if |b| > 2 then CharOf(n3) else '=';
  }

  /** Decoding undoes encoding, so the encoding loses nothing and is injective. */
  lemma {:induction false} DecodeEncode(b: seq<byte>)
    ensures Decode(Encode(b)) == b
    decreases |b|
  {
    if |b| == 0 {
    } else if |b| <= 3 {
      DecodeEncodeGroup(b);
      assert Encode(b)[4..] == "";
    } else {
      var s := Encode(b);
      assert s[..4] == EncodeGroup(b[..3]);
      assert s[4..] == Encode(b[3..]);
      DecodeEncodeGroup(b[..3]);
      DecodeEncode(b[3..]);
      assert b == b[..3] + b[3..];
    }
  }

  /** Encoding works group by group: a full leading group encodes on its own. */
  lemma EncodeAppendGroup(g: seq<byte>, rest: seq<byte>)
    requires |g| == 3
    ensures Encode(g + rest) == EncodeGroup(g) + Encode(rest)
  {
    assert (g + rest)[..3] == g;
    assert (g + rest)[3..] == rest;
  }

  /** The bytes of a string of 7-bit characters, as `String.getBytes()` yields them. */
  function AsciiBytes(s: string): (r: seq<byte>)
    requires forall i :: 0 <= i < |s| ==> s[i] as int < 128
    ensures |r| == |s|
    ensures forall i :: 0 <= i < |s| ==> r[i] == s[i] as int
  {
    seq(|s|, i requires 0 <= i < |s| => s[i] as int as byte)
  }
}
