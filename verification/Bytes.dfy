/** Machine integers and the fixed-width byte encodings used on the wire. */
module Bytes {

  const TWO32: int := 0x1_0000_0000
  const TWO64: int := 0x1_0000_0000_0000_0000

  type byte = x: int | 0 <= x < 256
  type u32 = x: int | 0 <= x < 0x1_0000_0000

  type Bytes16 = s: seq<byte> | |s| == 16 witness seq(16, i => 0)
  type Bytes32 = s: seq<byte> | |s| == 32 witness seq(32, i => 0)
  type Bytes64 = s: seq<byte> | |s| == 64 witness seq(64, i => 0)

  datatype Option<+T> = None | Some(value: T)

  /** `uint32_t(now - then)`: the wrapped distance between two clock readings. */
  function Since(now: u32, earlier: u32): u32 {
    (now - earlier) % TWO32
  }

  /** Little-endian 32-bit word, `struct.pack("<I", x)`. */
  function Le32(x: u32): seq<byte> {
    [x % 256, x / 256 % 256, x / 65536 % 256, x / 16777216 % 256]
  }

  /** Big-endian 32-bit word, `struct.pack(">I", x)`. */
  function Be32(x: u32): seq<byte> {
    [x / 16777216 % 256, x / 65536 % 256, x / 256 % 256, x % 256]
  }

  /** Big-endian 64-bit word, `struct.pack(">Q", x)`. */
  function Be64(x: int): seq<byte>
    requires 0 <= x < TWO64
  {
    Be32(x / TWO32) + Be32(x % TWO32)
  }

  /** The four base-256 digits of a word determine it. */
  lemma WordFromDigits(x: u32)
    ensures x == x % 256 + 256 * (x / 256 % 256) + 65536 * (x / 65536 % 256) + 16777216 * (x / 16777216 % 256)
  {
    DivTwice(x, 256);
    DivTwice(x, 65536);
    assert x / 16777216 < 256;
  }

  lemma DivTwice(x: nat, d: nat)
    requires d == 256 || d == 65536
    ensures x / (256 * d) == x / d / 256
  {
  }

  lemma Le32Injective(x: u32, y: u32)
    requires Le32(x) == Le32(y)
    ensures x == y
  {
    var s, t := Le32(x), Le32(y);
    assert s[0] == t[0] && s[1] == t[1] && s[2] == t[2] && s[3] == t[3];
    WordFromDigits(x);
    WordFromDigits(y);
  }

  lemma Be32Injective(x: u32, y: u32)
    requires Be32(x) == Be32(y)
    ensures x == y
  {
    var s, t := Be32(x), Be32(y);
    assert s[0] == t[0] && s[1] == t[1] && s[2] == t[2] && s[3] == t[3];
    WordFromDigits(x);
    WordFromDigits(y);
  }

  lemma Be64Injective(x: int, y: int)
    requires 0 <= x < TWO64 && 0 <= y < TWO64
    requires Be64(x) == Be64(y)
    ensures x == y
  {
    SplitAt(Be32(x / TWO32), Be32(x % TWO32), Be32(y / TWO32), Be32(y % TWO32));
    Be32Injective(x / TWO32, y / TWO32);
    Be32Injective(x % TWO32, y % TWO32);
  }

  /** Equal concatenations with equally long heads have equal heads and tails. */
  lemma SplitAt<T>(a: seq<T>, b: seq<T>, c: seq<T>, d: seq<T>)
    requires |a| == |c|
    requires a + b == c + d
    ensures a == c && b == d
  {
    assert a == (a + b)[..|a|] == (c + d)[..|c|] == c;
    assert b == (a + b)[|a|..] == (c + d)[|c|..] == d;
  }
}
