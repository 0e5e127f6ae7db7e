/** UTF-8 (RFC 3629, section 3): encoding, and decoding that drops what is malformed. */
module Utf8 {
  import opened Prelude

  newtype byte = x: int | 0 <= x < 256

  predicate IsCont(b: byte) {
    0x80 <= b < 0xC0
  }

  function EncodeChar(c: char): (bs: seq<byte>)
    ensures 1 <= |bs| <= 4
  {
    var n := c as int;
    if n < 0x80 then [n as byte]
    else if n < 0x800 then [(0xC0 + n / 0x40) as byte, (0x80 + n % 0x40) as byte]
    else if n < 0x10000 then
      [(0xE0 + n / 0x1000) as byte, (0x80 + n / 0x40 % 0x40) as byte, (0x80 + n % 0x40) as byte]
    else
      [(0xF0 + n / 0x40000) as byte, (0x80 + n / 0x1000 % 0x40) as byte,
       (0x80 + n / 0x40 % 0x40) as byte, (0x80 + n % 0x40) as byte]
  }

  function Encode(s: string): seq<byte> {
    if s == "" then [] else EncodeChar(s[0]) + Encode(s[1..])
  }

  function Low(b: byte): int {
    b as int % 0x40
  }

  predicate Conts(bs: seq<byte>, n: nat) {
    |bs| > n && forall i :: 1 <= i <= n ==> IsCont(bs[i])
  }

  predicate IsScalar(n: int) {
    0 <= n < 0xD800 || 0xE000 <= n < 0x110000
  }

  /** The character whose well-formed encoding starts `bs`, if there is one. */
  function HeadChar(bs: seq<byte>): (c: Option<char>)
    ensures c.Some? ==> |EncodeChar(c.value)| <= |bs|
  {
    if bs == [] then None
    else
      var b := bs[0] as int;
      if b < 0x80 then Some(b as char)
      else if 0xC0 <= b < 0xE0 && Conts(bs, 1) then
        var n := (b - 0xC0) * 0x40 + Low(bs[1]);
        if n < 0x80 then None else Some(n as char)
      else if 0xE0 <= b < 0xF0 && Conts(bs, 2) then
        var n := (b - 0xE0) * 0x1000 + Low(bs[1]) * 0x40 + Low(bs[2]);
        if n < 0x800 || !IsScalar(n) then None else Some(n as char)
      else if 0xF0 <= b < 0xF8 && Conts(bs, 3) then
        var n := (b - 0xF0) * 0x40000 + Low(bs[1]) * 0x1000 + Low(bs[2]) * 0x40 + Low(bs[3]);
        if n < 0x10000 || !IsScalar(n) then None else Some(n as char)
      else None
  }

  /** Decoding with malformed bytes ignored. */
  function DecodeIgnoring(bs: seq<byte>): string
    decreases |bs|
  {
    if bs == [] then ""
    else match HeadChar(bs)
      case None => DecodeIgnoring(bs[1..])
      case Some(c) => [c] + DecodeIgnoring(bs[|EncodeChar(c)|..])
  }

  lemma TwoBytes(c: char, bs: seq<byte>)
    requires 0x80 <= c as int < 0x800 && EncodeChar(c) <= bs
    ensures HeadChar(bs) == Some(c)
  {
    var e := EncodeChar(c);
    assert |e| == 2 && bs[0] == e[0] && bs[1] == e[1];
    assert Conts(bs, 1);
    assert Low(bs[1]) == c as int % 0x40;
    assert (bs[0] as int - 0xC0) * 0x40 + Low(bs[1]) == c as int;
  }

  lemma ThreeBytes(c: char, bs: seq<byte>)
    requires 0x800 <= c as int < 0x10000 && EncodeChar(c) <= bs
    ensures HeadChar(bs) == Some(c)
  {
    var n, e := c as int, EncodeChar(c);
    assert |e| == 3 && bs[0] == e[0] && bs[1] == e[1] && bs[2] == e[2];
    assert Conts(bs, 2);
    assert Low(bs[1]) == n / 0x40 % 0x40;
    assert Low(bs[2]) == n % 0x40;
    assert bs[0] as int - 0xE0 == n / 0x1000;
    assert n == n / 0x1000 * 0x1000 + n / 0x40 % 0x40 * 0x40 + n % 0x40;
  }

  lemma FourBytes(c: char, bs: seq<byte>)
    requires 0x10000 <= c as int && EncodeChar(c) <= bs
    ensures HeadChar(bs) == Some(c)
  {
    var n, e := c as int, EncodeChar(c);
    assert |e| == 4 && bs[0] == e[0] && bs[1] == e[1] && bs[2] == e[2] && bs[3] == e[3];
    assert Conts(bs, 3);
    assert Low(bs[1]) == n / 0x1000 % 0x40;
    assert Low(bs[2]) == n / 0x40 % 0x40;
    assert Low(bs[3]) == n % 0x40;
    assert bs[0] as int - 0xF0 == n / 0x40000;
    assert n == n / 0x40000 * 0x40000 + n / 0x1000 % 0x40 * 0x1000 + n / 0x40 % 0x40 * 0x40 + n % 0x40;
  }

  lemma HeadOfEncoding(c: char, rest: seq<byte>)
    ensures HeadChar(EncodeChar(c) + rest) == Some(c)
  {
    var n := c as int;
    var bs := EncodeChar(c) + rest;
    assert EncodeChar(c) <= bs;
    if n < 0x80 {
      assert bs[0] == EncodeChar(c)[0];
    } else if n < 0x800 {
      TwoBytes(c, bs);
    } else if n < 0x10000 {
      ThreeBytes(c, bs);
    } else {
      FourBytes(c, bs);
    }
  }

  lemma InnerBytesContinue(c: char, i: nat)
    requires 1 <= i < |EncodeChar(c)|
    ensures IsCont(EncodeChar(c)[i])
  {
  }

  /** A stray continuation byte is dropped. */
  lemma DropContinuation(b: byte, rest: seq<byte>)
    requires IsCont(b)
    ensures DecodeIgnoring([b] + rest) == DecodeIgnoring(rest)
  {
    var bs := [b] + rest;
    assert HeadChar(bs) == None;
    assert bs[1..] == rest;
  }

  /** A cut inside a character drops the rest of that character only. */
  lemma {:induction false} DecodeFromInside(c: char, i: nat, rest: seq<byte>)
    requires 1 <= i <= |EncodeChar(c)|
    ensures DecodeIgnoring(EncodeChar(c)[i..] + rest) == DecodeIgnoring(rest)
    decreases |EncodeChar(c)| - i
  {
    var e := EncodeChar(c);
    if i == |e| {
      assert e[i..] + rest == rest;
    } else {
      InnerBytesContinue(c, i);
      assert e[i..] + rest == [e[i]] + (e[i + 1..] + rest);
      DropContinuation(e[i], e[i + 1..] + rest);
      DecodeFromInside(c, i + 1, rest);
    }
  }

  lemma {:induction false} EncodeConcat(a: string, b: string)
    ensures Encode(a + b) == Encode(a) + Encode(b)
    decreases |a|
  {
    if a == "" {
      assert a + b == b;
    } else {
      assert (a + b)[1..] == a[1..] + b;
      EncodeConcat(a[1..], b);
    }
  }

  /** Well-formed text survives the round trip. */
  lemma {:induction false} DecodeEncoded(s: string)
    ensures DecodeIgnoring(Encode(s)) == s
    decreases |s|
  {
    if s != "" {
      HeadOfEncoding(s[0], Encode(s[1..]));
      DecodeEncoded(s[1..]);
      assert Encode(s)[|EncodeChar(s[0])|..] == Encode(s[1..]);
    }
  }

  /** Decoding a text's encoding from byte `k` on gives the text from the first character that
    * starts at `k` or later. */
  lemma {:induction false} DecodeFrom(s: string, k: nat) returns (j: nat)
    requires k <= |Encode(s)|
    ensures j <= |s| && DecodeIgnoring(Encode(s)[k..]) == s[j..]
    ensures |Encode(s[j..])| <= |Encode(s)| - k
    ensures j > 0 ==> |Encode(s[j - 1..])| > |Encode(s)| - k
    decreases |s|
  {
    hide HeadChar, EncodeChar;
    if k == 0 {
      DecodeEncoded(s);
      j := 0;
    } else {
      var head := EncodeChar(s[0]);
      var tail := Encode(s[1..]);
      if k < |head| {
        assert Encode(s)[k..] == head[k..] + tail;
        DecodeFromInside(s[0], k, tail);
        DecodeEncoded(s[1..]);
        j := 1;
      } else {
        assert Encode(s)[k..] == tail[k - |head|..];
        var i := DecodeFrom(s[1..], k - |head|);
        j := i + 1;
        assert s[1..][i..] == s[j..];
        if i > 0 {
          assert s[1..][i - 1..] == s[i..];
        }
      }
    }
  }
}
