/** Text forms on the serial line: canonical decimals, lower-case hex and
    space-separated fields. Each printer is paired with the parser that accepts
    exactly its image. */
module Text {
  import opened Bytes

  // ---- decimals ----

  predicate IsDigit(c: char) { '0' <= c <= '9' }

  function DigitChar(d: int): char
    requires 0 <= d < 10
  {
    '0' + d as char
  }

  function DigitValue(c: char): (d: int)
    requires IsDigit(c)
    ensures 0 <= d < 10 && DigitChar(d) == c
  {
    (c - '0') as int
  }

  predicate AllDigits(s: string) { forall i :: 0 <= i < |s| ==> IsDigit(s[i]) }

  /** Exact (unbounded) value of a digit string. */
  function Value(s: string): nat
    requires AllDigits(s)
  {
    if s == [] then 0 else Value(s[..|s| - 1]) * 10 + DigitValue(s[|s| - 1])
  }

  /** No leading zero, except in "0" itself. */
  predicate Canonical(s: string) {
    s != [] && AllDigits(s) && (s[0] == '0' ==> |s| == 1)
  }

  /** What the controller's decimal parser accepts, and the number it reads. */
  function Number(s: string): Option<u32> {
    if Canonical(s) && Value(s) < TWO32 then Some(Value(s)) else None
  }

  function Dec(n: nat): string {
    if n < 10 then [DigitChar(n)] else Dec(n / 10) + [DigitChar(n % 10)]
  }

  lemma {:induction false} DecIsCanonical(n: nat)
    ensures Canonical(Dec(n)) && Value(Dec(n)) == n
    ensures n > 0 ==> Dec(n)[0] != '0'
    ensures ' ' !in Dec(n)
  {
    if n < 10 {
      assert Dec(n)[..0] == [];
    } else {
      DecIsCanonical(n / 10);
      var s := Dec(n);
      assert s[..|s| - 1] == Dec(n / 10);
      assert s[0] == Dec(n / 10)[0];
    }
  }

  lemma {:induction false} CanonicalIsDec(s: string)
    requires Canonical(s)
    ensures s == Dec(Value(s))
  {
    var last := DigitValue(s[|s| - 1]);
    if |s| == 1 {
      assert s[..0] == [];
      assert s == [DigitChar(last)];
    } else {
      var p := s[..|s| - 1];
      assert p[0] == s[0];
      CanonicalIsDec(p);
      assert s == p + [DigitChar(last)];
      assert Dec(0)[0] == '0' && p != Dec(0);
      assert Value(s) / 10 == Value(p) && Value(s) % 10 == last;
    }
  }

  /** The decimal parser accepts exactly the canonical prints of 0 .. 2^32 - 1. */
  lemma {:induction false} NumberAcceptsExactlyCanonical(s: string, v: u32)
    ensures Number(s) == Some(v) <==> s == Dec(v)
  {
    DecIsCanonical(v);
    if Number(s) == Some(v) { CanonicalIsDec(s); }
  }

  lemma {:induction false} ValueMonotone(s: string, i: nat)
    requires AllDigits(s) && i <= |s|
    ensures Value(s[..i]) <= Value(s)
  {
    if i == |s| {
      assert s[..i] == s;
    } else {
      ValueMonotone(s[..|s| - 1], i);
      assert s[..|s| - 1][..i] == s[..i];
    }
  }

  lemma {:induction false} DecLength(n: nat, digits: nat, bound: nat)
    requires 1 <= digits && bound == Power10(digits) && n < bound
    ensures |Dec(n)| <= digits
  {
    assert Power10(1) == 10;
    if n >= 10 {
      DecLength(n / 10, digits - 1, Power10(digits - 1));
    }
  }

  function Power10(k: nat): nat { if k == 0 then 1 else 10 * Power10(k - 1) }

  lemma {:induction false} Dec32Length(n: u32)
    ensures |Dec(n)| <= 10
    ensures n < 1000 ==> |Dec(n)| <= 3
    ensures n < 10 ==> |Dec(n)| <= 1
  {
    assert Power10(3) == 1000;
    assert Power10(5) == 100000;
    assert Power10(8) == 1000 * Power10(5);
    assert Power10(10) == 100 * Power10(8);
    DecLength(n, 10, Power10(10));
    if n < 1000 { DecLength(n, 3, Power10(3)); }
  }

  // ---- hexadecimal ----

  predicate IsHexDigit(c: char) { '0' <= c <= '9' || 'a' <= c <= 'f' }

  function HexChar(d: int): char
    requires 0 <= d < 16
  {
    if d < 10 then '0' + d as char else 'a' + (d - 10) as char
  }

  function HexValue(c: char): (d: int)
    requires IsHexDigit(c)
    ensures 0 <= d < 16 && HexChar(d) == c
  {
    if c <= '9' then (c - '0') as int else (c - 'a') as int + 10
  }

  predicate AllHex(s: string) { forall i :: 0 <= i < |s| ==> IsHexDigit(s[i]) }

  function Hex(b: seq<byte>): string {
    if b == [] then "" else [HexChar(b[0] / 16), HexChar(b[0] % 16)] + Hex(b[1..])
  }

  function Bytes2(s: string): seq<byte>
    requires AllHex(s) && |s| % 2 == 0
  {
    if s == [] then [] else [HexValue(s[0]) * 16 + HexValue(s[1])] + Bytes2(s[2..])
  }

  /** What the controller's hex parser accepts for a field of `size` bytes. */
  function Unhex(s: string, size: nat): Option<seq<byte>> {
    if |s| == 2 * size && AllHex(s) then Some(Bytes2(s)) else None
  }

  lemma {:induction false} HexShape(b: seq<byte>)
    ensures |Hex(b)| == 2 * |b| && AllHex(Hex(b)) && Bytes2(Hex(b)) == b
    ensures ' ' !in Hex(b)
  {
    if b != [] {
      HexShape(b[1..]);
      var s := Hex(b);
      assert s[2..] == Hex(b[1..]);
      assert b == [b[0]] + b[1..];
      HexDigitRoundTrip(b[0] / 16);
      HexDigitRoundTrip(b[0] % 16);
    }
  }

  lemma {:induction false} HexDigitRoundTrip(d: int)
    requires 0 <= d < 16
    ensures IsHexDigit(HexChar(d)) && HexValue(HexChar(d)) == d
  {
  }

  lemma {:induction false} Bytes2Shape(s: string)
    requires AllHex(s) && |s| % 2 == 0
    ensures |Bytes2(s)| == |s| / 2 && Hex(Bytes2(s)) == s
  {
    if s != [] {
      Bytes2Shape(s[2..]);
      var b := Bytes2(s);
      assert b[1..] == Bytes2(s[2..]);
      assert b[0] / 16 == HexValue(s[0]) && b[0] % 16 == HexValue(s[1]);
      assert s == [s[0], s[1]] + s[2..];
    }
  }

  /** The hex parser accepts exactly the lower-case prints of `size` bytes. */
  lemma {:induction false} UnhexAcceptsExactlyHex(s: string, size: nat, b: seq<byte>)
    ensures Unhex(s, size) == Some(b) <==> |b| == size && s == Hex(b)
  {
    HexShape(b);
    if Unhex(s, size) == Some(b) { Bytes2Shape(s); }
  }

  // ---- space-separated fields ----

  function Join(fields: seq<string>): string
    requires fields != []
  {
    if |fields| == 1 then fields[0] else fields[0] + " " + Join(fields[1..])
  }

  function FirstSpace(s: string): (i: nat)
    ensures i <= |s|
  {
    if s == [] || s[0] == ' ' then 0 else 1 + FirstSpace(s[1..])
  }

  lemma {:induction false} FirstSpaceFinds(s: string)
    ensures ' ' !in s[..FirstSpace(s)] && (FirstSpace(s) < |s| ==> s[FirstSpace(s)] == ' ')
  {
    if s != [] && s[0] != ' ' {
      FirstSpaceFinds(s[1..]);
      var i := FirstSpace(s[1..]);
      assert s[..i + 1] == [s[0]] + s[1..][..i];
    }
  }

  function Split(s: string): (fields: seq<string>)
    ensures fields != []
    decreases |s|
  {
    var i := FirstSpace(s);
    if i == |s| then [s] else [s[..i]] + Split(s[i + 1..])
  }

  predicate SpaceFree(fields: seq<string>) {
    forall i :: 0 <= i < |fields| ==> ' ' !in fields[i]
  }

  lemma {:induction false} JoinFirst(f: string, rest: seq<string>)
    requires rest != []
    ensures Join([f] + rest) == f + " " + Join(rest)
  {
    assert ([f] + rest)[1..] == rest;
  }

  lemma {:induction false} SplitThenJoin(s: string)
    ensures SpaceFree(Split(s)) && Join(Split(s)) == s
    decreases |s|
  {
    var i := FirstSpace(s);
    FirstSpaceFinds(s);
    if i == |s| {
      assert s[..i] == s;
    } else {
      var rest := s[i + 1..];
      SplitThenJoin(rest);
      JoinFirst(s[..i], Split(rest));
      assert s == s[..i] + " " + rest;
    }
  }

  lemma {:induction false} JoinThenSplit(fields: seq<string>)
    requires fields != [] && SpaceFree(fields)
    ensures Split(Join(fields)) == fields
  {
    var f, rest := fields[0], fields[1..];
    assert fields == [f] + rest;
    if rest == [] {
      FirstSpaceAfter(f, "");
      assert f + "" == f;
    } else {
      JoinThenSplit(rest);
      SplitFirst(f, Join(rest));
      assert Join(fields) == f + " " + Join(rest);
    }
  }

  lemma {:induction false} SplitFirst(f: string, rest: string)
    requires ' ' !in f
    ensures Split(f + " " + rest) == [f] + Split(rest)
  {
    var s := f + " " + rest;
    assert s == f + (" " + rest);
    FirstSpaceAfter(f, " " + rest);
    assert s[..|f|] == f && s[|f| + 1..] == rest;
  }

  lemma {:induction false} FirstSpaceAfter(f: string, rest: string)
    requires ' ' !in f && (rest == [] || rest[0] == ' ')
    ensures FirstSpace(f + rest) == |f|
  {
    if f != [] {
      assert (f + rest)[1..] == f[1..] + rest;
      FirstSpaceAfter(f[1..], rest);
    }
  }
}
