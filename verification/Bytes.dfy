/** Bytes, little-endian integers, and where one byte string sits inside another. */
module Bytes {
  type byte = x: int | 0 <= x < 0x100
  type u32 = x: int | 0 <= x < 0x1_0000_0000
  type u64 = x: int | 0 <= x < 0x1_0000_0000_0000_0000
  type i64 = x: int | -0x8000_0000_0000_0000 <= x < 0x8000_0000_0000_0000

  const U64_LIMIT: nat := 0x1_0000_0000_0000_0000

  function Power256(n: nat): (r: nat)
    ensures r >= 1
  {
    if n == 0 then 1 else 256 * Power256(n - 1)
  }

  function Power10(n: nat): nat {
    if n == 0 then 1 else 10 * Power10(n - 1)
  }

  /** The ASCII digits of a number. */
  function Decimal(n: nat): (s: seq<byte>)
    ensures |s| >= 1 && forall i :: 0 <= i < |s| ==> 48 <= s[i] <= 57
  {
    if n < 10 then [48 + n] else Decimal(n / 10) + [48 + n % 10]
  }

  function ToLittleEndian(v: nat, n: nat): (r: seq<byte>)
    ensures |r| == n
  {
    if n == 0 then [] else [v % 256] + ToLittleEndian(v / 256, n - 1)
  }

  function FromLittleEndian(b: seq<byte>): nat {
    if b == [] then 0 else b[0] + 256 * FromLittleEndian(b[1..])
  }

  lemma {:induction false} LittleEndianRoundTrip(v: nat, n: nat)
    requires v < Power256(n)
    ensures FromLittleEndian(ToLittleEndian(v, n)) == v
  {
    if n > 0 {
      LittleEndianRoundTrip(v / 256, n - 1);
      assert ToLittleEndian(v, n)[1..] == ToLittleEndian(v / 256, n - 1);
    }
  }

  lemma {:induction false} FromLittleEndianBound(b: seq<byte>)
    ensures FromLittleEndian(b) < Power256(|b|)
  {
    if b != [] {
      FromLittleEndianBound(b[1..]);
    }
  }

  lemma Powers()
    ensures Power256(4) == 0x1_0000_0000 && Power256(8) == U64_LIMIT
  {
    assert Power256(1) == 0x100;
    assert Power256(2) == 0x1_0000;
    assert Power256(3) == 0x100_0000;
    assert Power256(4) == 0x1_0000_0000;
    assert Power256(5) == 0x100_0000_0000;
    assert Power256(6) == 0x1_0000_0000_0000;
    assert Power256(7) == 0x100_0000_0000_0000;
  }

  /** Two's complement. */
  function Unsigned(v: i64): u64 {
    if v < 0 then v + U64_LIMIT else v
  }

  function Signed(v: u64): i64 {
    if v < 0x8000_0000_0000_0000 then v else v - U64_LIMIT
  }

  function U64Bytes(v: u64): (r: seq<byte>)
    ensures |r| == 8
  {
    ToLittleEndian(v, 8)
  }

  function U64Of(b: seq<byte>): u64
    requires |b| == 8
  {
    FromLittleEndianBound(b);
    Powers();
    FromLittleEndian(b)
  }

  lemma U64RoundTrip(v: u64)
    ensures U64Of(U64Bytes(v)) == v
  {
    Powers();
    LittleEndianRoundTrip(v, 8);
  }

  // ----------------------------------------------------------------- positions

  /** `e` sits in `b` at `i`. */
  ghost predicate At(b: seq<byte>, i: nat, e: seq<byte>) {
    i + |e| <= |b| && b[i..i + |e|] == e
  }

  lemma AtSplit(b: seq<byte>, i: nat, x: seq<byte>, y: seq<byte>) returns (j: nat)
    requires At(b, i, x + y)
    ensures j == i + |x| && At(b, i, x) && At(b, j, y)
  {
    j := i + |x|;
    var w := b[i..i + |x + y|];
    assert w[..|x|] == x && w[|x|..] == y;
    assert b[i..i + |x|] == w[..|x|] && b[i + |x|..i + |x| + |y|] == w[|x|..];
  }

  lemma AtFour(b: seq<byte>, i: nat, w: seq<byte>, x: seq<byte>, y: seq<byte>, z: seq<byte>)
    returns (j: nat, k: nat, l: nat)
    requires At(b, i, w + (x + (y + z)))
    ensures j == i + |w| && k == j + |x| && l == k + |y|
    ensures At(b, i, w) && At(b, j, x) && At(b, k, y) && At(b, l, z)
  {
    j := AtSplit(b, i, w, x + (y + z));
    k := AtSplit(b, j, x, y + z);
    l := AtSplit(b, k, y, z);
  }

  lemma AtPairs(b: seq<byte>, i: nat, w: seq<byte>, x: seq<byte>, y: seq<byte>, z: seq<byte>)
    returns (j: nat, k: nat, l: nat)
    requires At(b, i, (w + x) + (y + z))
    ensures j == i + |w| && k == j + |x| && l == k + |y|
    ensures At(b, i, w) && At(b, j, x) && At(b, k, y) && At(b, l, z)
  {
    k := AtSplit(b, i, w + x, y + z);
    j := AtSplit(b, i, w, x);
    l := AtSplit(b, k, y, z);
  }

  lemma Append2(s: seq<byte>, u: seq<byte>, v: seq<byte>)
    ensures (s + u) + v == s + (u + v)
  {
  }

  lemma Append3(s: seq<byte>, u: seq<byte>, v: seq<byte>, w: seq<byte>)
    ensures ((s + u) + v) + w == s + (u + (v + w))
  {
    Append2(s + u, v, w);
    Append2(s, u, v + w);
  }

  lemma Append5(s: seq<byte>, u: seq<byte>, v: seq<byte>, w: seq<byte>, x: seq<byte>, y: seq<byte>)
    ensures ((((s + u) + v) + w) + x) + y == s + (u + (v + (w + (x + y))))
  {
    Append3((s + u) + v, w, x, y);
    Append3(s, u, v, w + (x + y));
  }

  lemma AppendNext<T>(acc: seq<T>, xs: seq<T>)
    requires xs != []
    ensures acc + [xs[0]] + xs[1..] == acc + xs
  {
  }

  // --------------------------------------------------------------------- UTF-8

  predicate Continuation(c: byte) {
    0x80 <= c <= 0xBF
  }

  /** The number of bytes of the well-formed sequence at the start of `s`, or 0 (RFC 3629, section 4). */
  function Utf8Step(s: seq<byte>): (n: nat)
    requires s != []
    ensures n <= |s|
  {
    if s[0] <= 0x7F then 1
    else if |s| >= 2 && 0xC2 <= s[0] <= 0xDF && Continuation(s[1]) then 2
    else if |s| >= 3 && s[0] == 0xE0 && 0xA0 <= s[1] <= 0xBF && Continuation(s[2]) then 3
    else if |s| >= 3 && (0xE1 <= s[0] <= 0xEC || 0xEE <= s[0] <= 0xEF) && Continuation(s[1]) && Continuation(s[2]) then 3
    else if |s| >= 3 && s[0] == 0xED && 0x80 <= s[1] <= 0x9F && Continuation(s[2]) then 3
    else if |s| >= 4 && s[0] == 0xF0 && 0x90 <= s[1] <= 0xBF && Continuation(s[2]) && Continuation(s[3]) then 4
    else if |s| >= 4 && 0xF1 <= s[0] <= 0xF3 && Continuation(s[1]) && Continuation(s[2]) && Continuation(s[3]) then 4
    else if |s| >= 4 && s[0] == 0xF4 && 0x80 <= s[1] <= 0x8F && Continuation(s[2]) && Continuation(s[3]) then 4
    else 0
  }

  predicate IsUtf8(s: seq<byte>) {
    s == [] || (Utf8Step(s) > 0 && IsUtf8(s[Utf8Step(s)..]))
  }

  /** A string, as its bytes. */
  type Text = s: seq<byte> | IsUtf8(s) witness []
}
