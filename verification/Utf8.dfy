/** The UTF-8 check against the definition of RFC 3629, section 3: text is what encodes a sequence of scalar values. */
module Utf8 {
  import opened Bytes

  /** A Unicode scalar value: any code point that is no surrogate. */
  type Scalar = c: int | 0 <= c < 0x110000 && !(0xD800 <= c < 0xE000)

  /** One to four bytes, six bits in each but the first. */
  function EncodeScalar(c: Scalar): (s: seq<byte>)
    ensures 1 <= |s| <= 4
  {
    if c < 0x80 then [c]
    else if c < 0x800 then [0xC0 + c / 64, 0x80 + c % 64]
    else if c < 0x1_0000 then [0xE0 + c / 4096, 0x80 + c / 64 % 64, 0x80 + c % 64]
    else [0xF0 + c / 262144, 0x80 + c / 4096 % 64, 0x80 + c / 64 % 64, 0x80 + c % 64]
  }

  function EncodeAll(cs: seq<Scalar>): seq<byte> {
    if cs == [] then [] else EncodeScalar(cs[0]) + EncodeAll(cs[1..])
  }

  lemma ScalarIsStepped(c: Scalar, rest: seq<byte>)
    ensures Utf8Step(EncodeScalar(c) + rest) == |EncodeScalar(c)|
  {
    var s := EncodeScalar(c) + rest;
    assert forall i :: 0 <= i < |EncodeScalar(c)| ==> s[i] == EncodeScalar(c)[i];
    if 0x800 <= c < 0x1_0000 {
      ThreeBytes(c);
    } else if c >= 0x1_0000 {
      FourBytes(c);
    }
  }

  lemma ThreeBytes(c: Scalar)
    requires 0x800 <= c < 0x1_0000
    ensures var a, b := c / 4096, c / 64 % 64;
            && c == 4096 * a + 64 * b + c % 64 && 0 <= a <= 15
            && (a == 0 ==> b >= 32) && (a == 13 ==> b < 32)
  {
  }

  lemma FourBytes(c: Scalar)
    requires c >= 0x1_0000
    ensures var a, b := c / 262144, c / 4096 % 64;
            && c == 262144 * a + 4096 * b + 64 * (c / 64 % 64) + c % 64 && 0 <= a <= 4
            && (a == 0 ==> b >= 16) && (a == 4 ==> b < 16)
  {
  }

  lemma TwoDecode(a: int, b: int) returns (c: Scalar)
    requires 2 <= a < 32 && 0 <= b < 64
    ensures EncodeScalar(c) == [0xC0 + a, 0x80 + b]
  {
    c := 64 * a + b;
    assert c / 64 == a && c % 64 == b;
  }

  lemma ThreeDecode(a: int, b: int, d: int) returns (c: Scalar)
    requires 0 <= a < 16 && 0 <= b < 64 && 0 <= d < 64 && (a == 0 ==> b >= 32) && (a == 13 ==> b < 32)
    ensures EncodeScalar(c) == [0xE0 + a, 0x80 + b, 0x80 + d]
  {
    c := 4096 * a + 64 * b + d;
    assert c / 64 == 64 * a + b && c % 64 == d;
    assert c / 4096 == a && c / 64 % 64 == b;
  }

  lemma FourDecode(a: int, b: int, d: int, e: int) returns (c: Scalar)
    requires 0 <= a < 5 && 0 <= b < 64 && 0 <= d < 64 && 0 <= e < 64 && (a == 0 ==> b >= 16) && (a == 4 ==> b < 16)
    ensures EncodeScalar(c) == [0xF0 + a, 0x80 + b, 0x80 + d, 0x80 + e]
  {
    c := 262144 * a + 4096 * b + 64 * d + e;
    assert c / 64 == 4096 * a + 64 * b + d && c % 64 == e;
    assert c / 4096 == 64 * a + b && c / 64 % 64 == d;
    assert c / 262144 == a && c / 4096 % 64 == b;
  }

  /** A step over checked bytes is over the encoding of one scalar. */
  lemma StepIsScalar(s: seq<byte>) returns (c: Scalar)
    requires s != [] && Utf8Step(s) > 0
    ensures s[..Utf8Step(s)] == EncodeScalar(c)
  {
    hide EncodeScalar;
    var n := Utf8Step(s);
    if n == 1 {
      c := OneDecode(s[0]);
    } else if n == 2 {
      c := TwoDecode(s[0] as int - 0xC0, s[1] as int - 0x80);
    } else if n == 3 {
      c := ThreeDecode(s[0] as int - 0xE0, s[1] as int - 0x80, s[2] as int - 0x80);
    } else {
      c := FourDecode(s[0] as int - 0xF0, s[1] as int - 0x80, s[2] as int - 0x80, s[3] as int - 0x80);
    }
  }

  lemma OneDecode(a: int) returns (c: Scalar)
    requires 0 <= a < 0x80
    ensures EncodeScalar(c) == [a]
  {
    c := a;
  }

  lemma {:induction false} EncodedIsText(cs: seq<Scalar>)
    ensures IsUtf8(EncodeAll(cs))
    decreases |cs|
  {
    if cs != [] {
      EncodedIsText(cs[1..]);
      ScalarIsStepped(cs[0], EncodeAll(cs[1..]));
      assert EncodeAll(cs)[|EncodeScalar(cs[0])|..] == EncodeAll(cs[1..]);
    }
  }

  lemma {:induction false} TextIsEncoded(s: seq<byte>) returns (cs: seq<Scalar>)
    requires IsUtf8(s)
    ensures EncodeAll(cs) == s
    decreases |s|
  {
    if s == [] {
      cs := [];
    } else {
      var c := StepIsScalar(s);
      var rest := TextIsEncoded(s[Utf8Step(s)..]);
      cs := [c] + rest;
      assert cs[1..] == rest && s == s[..Utf8Step(s)] + s[Utf8Step(s)..];
    }
  }

  /** Exactly the encodings of sequences of scalar values are taken for text. */
  lemma TextExactly(s: seq<byte>)
    ensures IsUtf8(s) <==> exists cs :: EncodeAll(cs) == s
  {
    if IsUtf8(s) {
      var cs := TextIsEncoded(s);
    }
    if cs :| EncodeAll(cs) == s {
      EncodedIsText(cs);
    }
  }
}
