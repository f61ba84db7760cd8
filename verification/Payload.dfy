/** The byte strings that are authenticated: LED permits, signed key exchange,
    and the role-bound input envelopes. Both ends must build the same bytes, and
    the bytes must determine every field. */
module Payload {
  import opened Bytes

  // "HAETAE-LED-H2" and "HAETAE-KEX-H2", zero padded to 16 bytes.
  const LED_DOMAIN: seq<byte> := [72, 65, 69, 84, 65, 69, 45, 76, 69, 68, 45, 72, 50, 0, 0, 0]
  const KEX_DOMAIN: seq<byte> := [72, 65, 69, 84, 65, 69, 45, 75, 69, 88, 45, 72, 50, 0, 0, 0]
  const PAYLOAD_SIZE: int := 76
  const BIND_SIZE: int := 140

  /** The fields of one payload; `sequence` is the number being granted. */
  datatype Claim = Claim(install: Bytes16, epoch: u32, generation: u32, sequence: u32, challenge: u32,
                         issued: u32, duration: u32, action: u32, nonce: Bytes16)
  {
    function Fields(): seq<u32> {
      [epoch, generation, sequence, challenge, issued, duration, action]
    }
  }

  /** The words of a payload in order, each little-endian (`struct.pack("<7I", ...)`). */
  function Words(fields: seq<u32>): (b: seq<byte>)
    ensures |b| == 4 * |fields|
  {
    if fields == [] then [] else Le32(fields[0]) + Words(fields[1..])
  }

  function Body(c: Claim): (b: seq<byte>)
    ensures |b| == 60
  {
    c.install + Words(c.Fields()) + c.nonce
  }

  /** The authenticated bytes of one ARM or RUN permit, and of a challenge. */
  function LedBytes(c: Claim): (b: seq<byte>)
    ensures |b| == PAYLOAD_SIZE
  {
    LED_DOMAIN + Body(c)
  }

  /** The signed bytes of one key exchange. */
  function BindBytes(c: Claim, peer: Bytes32, controller: Bytes32): (b: seq<byte>)
    ensures |b| == BIND_SIZE
  {
    KEX_DOMAIN + Body(c) + peer + controller
  }

  lemma {:induction false} WordsInjective(a: seq<u32>, b: seq<u32>)
    requires |a| == |b| && Words(a) == Words(b)
    ensures a == b
  {
    if a != [] {
      SplitAt(Le32(a[0]), Words(a[1..]), Le32(b[0]), Words(b[1..]));
      Le32Injective(a[0], b[0]);
      WordsInjective(a[1..], b[1..]);
      assert a == [a[0]] + a[1..] && b == [b[0]] + b[1..];
    }
  }

  lemma BodyInjective(c: Claim, d: Claim)
    requires Body(c) == Body(d)
    ensures c == d
  {
    SplitAt(c.install + Words(c.Fields()), c.nonce, d.install + Words(d.Fields()), d.nonce);
    SplitAt(c.install, Words(c.Fields()), d.install, Words(d.Fields()));
    WordsInjective(c.Fields(), d.Fields());
    FieldsDetermine(c, d);
  }

  lemma FieldsDetermine(c: Claim, d: Claim)
    requires c.install == d.install && c.nonce == d.nonce && c.Fields() == d.Fields()
    ensures c == d
  {
    var f, g := c.Fields(), d.Fields();
    assert f[0] == g[0] && f[1] == g[1] && f[2] == g[2] && f[3] == g[3];
    assert f[4] == g[4] && f[5] == g[5] && f[6] == g[6];
  }

  /** A permit payload determines every one of its fields. */
  lemma LedBytesInjective(c: Claim, d: Claim)
    requires LedBytes(c) == LedBytes(d)
    ensures c == d
  {
    SplitAt(LED_DOMAIN, Body(c), LED_DOMAIN, Body(d));
    BodyInjective(c, d);
  }

  /** A key-exchange payload determines its fields and both public keys. */
  lemma BindBytesInjective(c: Claim, p: Bytes32, k: Bytes32, d: Claim, q: Bytes32, l: Bytes32)
    requires BindBytes(c, p, k) == BindBytes(d, q, l)
    ensures c == d && p == q && k == l
  {
    SplitAt(KEX_DOMAIN + Body(c) + p, k, KEX_DOMAIN + Body(d) + q, l);
    SplitAt(KEX_DOMAIN + Body(c), p, KEX_DOMAIN + Body(d), q);
    SplitAt(KEX_DOMAIN, Body(c), KEX_DOMAIN, Body(d));
    BodyInjective(c, d);
  }

  /** No key exchange can be read as a permit: even the prefixes differ. */
  lemma DomainsDisjoint(c: Claim, d: Claim, peer: Bytes32, controller: Bytes32)
    ensures LedBytes(c)[..16] != BindBytes(d, peer, controller)[..16]
    ensures LedBytes(c) != BindBytes(d, peer, controller)
  {
    assert LedBytes(c)[7] == LED_DOMAIN[7];
    assert BindBytes(d, peer, controller)[7] == KEX_DOMAIN[7];
    assert LedBytes(c)[..16][7] != BindBytes(d, peer, controller)[..16][7];
  }

  /** `uint8_t(x >> (j * 8))` */
  function ShiftedByte(x: u32, j: nat): byte
    requires j < 4
  {
    if j == 0 then x % 256 else if j == 1 then x / 256 % 256
    else if j == 2 then x / 65536 % 256 else x / 16777216 % 256
  }

  lemma {:induction false} WordsAt(fields: seq<u32>, i: nat, j: nat)
    requires i < |fields| && j < 4
    ensures Words(fields)[4 * i + j] == ShiftedByte(fields[i], j)
  {
    if i > 0 {
      WordsAt(fields[1..], i - 1, j);
      assert Words(fields)[4 * i + j] == Words(fields[1..])[4 * (i - 1) + j];
    }
  }

  /** The controller's loops that lay a payload out in a buffer. Their result is
      the very byte string the authorizer packs. */
  method WritePayload(out: array<byte>, c: Claim)
    requires out.Length >= PAYLOAD_SIZE
    modifies out
    ensures out[..PAYLOAD_SIZE] == LedBytes(c)
    ensures out[PAYLOAD_SIZE..] == old(out[PAYLOAD_SIZE..])
  {
    Copy(out, 0, LED_DOMAIN);
    Copy(out, 16, c.install);
    var fields := c.Fields();
    WriteWords(out, fields);
    Copy(out, 60, c.nonce);
    assert out[..60] == LED_DOMAIN + c.install + Words(fields);
    assert out[..PAYLOAD_SIZE] == out[..60] + out[60..76];
    assert LED_DOMAIN + c.install + Words(fields) + c.nonce == LedBytes(c);
  }

  method WriteWords(out: array<byte>, fields: seq<u32>)
    requires |fields| == 7 && out.Length >= PAYLOAD_SIZE
    modifies out
    ensures out[32..60] == Words(fields)
    ensures forall k :: 0 <= k < out.Length && !(32 <= k < 60) ==> out[k] == old(out[k])
  {
    for i := 0 to 7
      invariant forall k :: 0 <= k < 4 * i ==> out[32 + k] == Words(fields)[k]
      invariant forall k :: 0 <= k < out.Length && !(32 <= k < 60) ==> out[k] == old(out[k])
    {
      for j := 0 to 4
        invariant forall k :: 0 <= k < 4 * i + j ==> out[32 + k] == Words(fields)[k]
        invariant forall k :: 0 <= k < out.Length && !(32 <= k < 60) ==> out[k] == old(out[k])
      {
        WordsAt(fields, i, j);
        out[32 + i * 4 + j] := ShiftedByte(fields[i], j);
      }
    }
  }

  /** `memcpy(out + at, data, |data|)` */
  method Copy(out: array<byte>, at: nat, data: seq<byte>)
    requires at + |data| <= out.Length
    modifies out
    ensures out[at..at + |data|] == data
    ensures forall k :: 0 <= k < out.Length && !(at <= k < at + |data|) ==> out[k] == old(out[k])
  {
    for i := 0 to |data|
      invariant out[at..at + i] == data[..i]
      invariant forall k :: 0 <= k < out.Length && !(at <= k < at + |data|) ==> out[k] == old(out[k])
    {
      out[at + i] := data[i];
    }
  }

  /** The controller first lays out a permit payload and then overwrites the
      domain; the result is the byte string the authorizer signs. */
  method WriteBindPayload(out: array<byte>, c: Claim, peer: Bytes32, controller: Bytes32)
    requires out.Length == BIND_SIZE
    modifies out
    ensures out[..] == BindBytes(c, peer, controller)
  {
    WritePayload(out, c);
    assert out[16..76] == out[..76][16..] == Body(c);
    Copy(out, 0, KEX_DOMAIN);
    Copy(out, 76, peer);
    Copy(out, 108, controller);
    assert out[..] == out[..76] + out[76..108] + out[108..140];
    assert out[..76] == out[..16] + out[16..76];
  }

  // ---- role-bound input envelopes ----

  // "haetae-input-v1\0"
  const INPUT_DOMAIN: seq<byte> := [104, 97, 101, 116, 97, 101, 45, 105, 110, 112, 117, 116, 45, 118, 49, 0]

  datatype Role = World | Fault | Vla | Planner | Teleop | Peer

  function RoleTag(role: Role): byte {
    match role
    case World => 1 case Fault => 2 case Vla => 3 case Planner => 4 case Teleop => 5 case Peer => 6
  }

  datatype Input = Input(audience: seq<byte>, epoch: int, counter: int, role: Role, payload: seq<byte>)
  {
    /** The ranges outside of which `struct.pack` raises. */
    predicate Packable() {
      |audience| < TWO32 && 0 <= epoch < TWO64 && 0 <= counter < TWO64 && |payload| < TWO32
    }
  }

  /** What follows the audience in the signed message. */
  function TailOf(m: Input): seq<byte>
    requires m.Packable()
  {
    Be64(m.epoch) + (Be64(m.counter) + ([RoleTag(m.role)] + (Be32(|m.payload|) + m.payload)))
  }

  /** The signed message of an input, or None where packing a field raises. */
  function InputMessage(m: Input): Option<seq<byte>> {
    if !m.Packable() then None else
    Some(INPUT_DOMAIN + (Be32(|m.audience|) + (m.audience + TailOf(m))))
  }

  /** Two inputs with the same signed message are the same input, whatever the
      lengths of their two variable parts. */
  lemma InputMessageInjective(m: Input, n: Input)
    requires InputMessage(m).Some? && InputMessage(m) == InputMessage(n)
    ensures m == n
  {
    var tailM, tailN := TailOf(m), TailOf(n);
    SplitAt(INPUT_DOMAIN, Be32(|m.audience|) + (m.audience + tailM),
            INPUT_DOMAIN, Be32(|n.audience|) + (n.audience + tailN));
    SplitAt(Be32(|m.audience|), m.audience + tailM, Be32(|n.audience|), n.audience + tailN);
    Be32Injective(|m.audience|, |n.audience|);
    SplitAt(m.audience, tailM, n.audience, tailN);
    TailInjective(m, n);
  }

  lemma TailInjective(m: Input, n: Input)
    requires m.Packable() && n.Packable() && m.audience == n.audience
    requires TailOf(m) == TailOf(n)
    ensures m == n
  {
    var afterM := [RoleTag(m.role)] + (Be32(|m.payload|) + m.payload);
    var afterN := [RoleTag(n.role)] + (Be32(|n.payload|) + n.payload);
    SplitAt(Be64(m.epoch), Be64(m.counter) + afterM, Be64(n.epoch), Be64(n.counter) + afterN);
    SplitAt(Be64(m.counter), afterM, Be64(n.counter), afterN);
    SplitAt([RoleTag(m.role)], Be32(|m.payload|) + m.payload, [RoleTag(n.role)], Be32(|n.payload|) + n.payload);
    SplitAt(Be32(|m.payload|), m.payload, Be32(|n.payload|), n.payload);
    Be64Injective(m.epoch, n.epoch);
    Be64Injective(m.counter, n.counter);
    assert [RoleTag(m.role)][0] == [RoleTag(n.role)][0];
  }
}
