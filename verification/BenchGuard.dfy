/** The bench guard as the object that runs. Every method is proved to compute the
    function of the same name in module Bench. */
module BenchGuardClass {
  import opened Bytes
  import opened Text
  import opened LineBuffer
  import B = Bench

  datatype Power = Power(on: bool, armed: bool, canArm: bool, renewed: u32)
  datatype Link = Link(session: string, connected: bool, sequence: u32, challenge: u32, issued: u32)
  datatype Reply = Reply(ok: bool, reason: B.Reason)

  /** `number` of the bench guard: as the permit guard's, but leading zeros pass. */
  method ParseDigits(line: array<char>, at: nat, ghost s: string) returns (r: Option<u32>)
    requires CString(line[..], at, s)
    ensures r == B.Digits(s)
  {
    CStringAt(line[..], at, s, 0);
    if line[at] == '\0' { return None; }
    var value: u32, i := 0, 0;
    while line[at + i] != '\0'
      invariant i <= |s| && AllDigits(s[..i]) && value == Value(s[..i])
      invariant at + |s| < line.Length && (line[at + i] == '\0' <==> i == |s|)
      decreases |s| - i
    {
      CStringAt(line[..], at, s, i);
      var c := line[at + i];
      if !IsDigit(c) { return None; }
      var digit := DigitValue(c);
      assert s[..i + 1][..i] == s[..i];
      if value > (0xffff_ffff - digit) / 10 {
        if AllDigits(s) { ValueMonotone(s, i + 1); }
        return None;
      }
      value := value * 10 + digit;
      i := i + 1;
      CStringAt(line[..], at, s, i);
    }
    assert s[..i] == s;
    return Some(value);
  }

  /** The session field: the hex digits up to the NUL. */
  method HexField(line: array<char>, at: nat, ghost s: string) returns (ok: bool, text: string)
    requires CString(line[..], at, s)
    ensures ok <==> AllHex(s)
    ensures ok ==> text == s
  {
    text := "";
    CStringAt(line[..], at, s, 0);
    while line[at + |text|] != '\0'
      invariant |text| <= |s| && text == s[..|text|] && AllHex(text)
      invariant at + |s| < line.Length && (line[at + |text|] == '\0' <==> |text| == |s|)
      decreases |s| - |text|
    {
      CStringAt(line[..], at, s, |text|);
      var c := line[at + |text|];
      if !IsHexDigit(c) { return false, text; }
      text := text + [c];
      CStringAt(line[..], at, s, |text|);
    }
    return true, text;
  }

  class BenchGuard {
    const line: array<char>
    var power: Power
    var link: Link
    var length: nat
    ghost var text: string  // what the buffer holds so far
    var partialStarted: u32
    var discard: bool
    var reply: Reply

    ghost predicate Valid()
      reads this`length, this`text, line
    {
      line.Length == B.FRAME_SIZE && length < B.FRAME_SIZE && text == line[..length] && '\0' !in text
    }

    /** The guard state this object stands for. */
    ghost function Model(): B.State
      reads this
    {
      B.State(link.session, link.connected, link.sequence, link.challenge, link.issued, power.renewed,
              power.on, power.armed, power.canArm, text, partialStarted, discard, reply.ok, reply.reason)
    }

    constructor ()
      ensures Valid() && fresh(line) && Model() == B.BOOTED
    {
      line := new char[B.FRAME_SIZE](i => '\0');
      power, link := Power(false, false, false, 0), Link("0000000000000000", false, 0, 0, 0);
      length, text, partialStarted, discard := 0, "", 0, false;
      reply := Reply(false, B.Boot);
    }

    method Fail(reason: B.Reason)
      requires Valid()
      modifies this`power, this`reply
      ensures Valid() && Model() == B.Fail(old(Model()), reason)
    {
      power := power.(on := false, armed := false, canArm := false);
      reply := Reply(false, reason);
    }

    method Tick(now: u32)
      requires Valid()
      modifies this`power, this`reply, this`length, this`text, this`discard
      ensures Valid() && Model() == B.Tick(old(Model()), now)
    {
      if power.armed && Since(now, power.renewed) >= B.LEASE_MS { Fail(B.LeaseOver); }
      if length != 0 && Since(now, partialStarted) >= B.PARTIAL_MS {
        Fail(B.Partial);
        length, text, discard := 0, "", true;
      }
    }

    method Feed(c: char, now: u32) returns (replyReady: bool)
      requires Valid()
      modifies this, line
      ensures Valid() && Model() == B.Feed(old(Model()), c, now)
      ensures replyReady <==> c == '\n'
    {
      Tick(now);
      if c == '\n' {
        if discard {
          discard, length, text := false, 0, "";
          reply := reply.(ok := false);
        } else {
          ghost var s := text;
          line[length] := '\0';
          length, text := 0, "";
          assert line[0..0 + |s|] == s;
          Command(now, s);
        }
      } else if !discard {
        if c < ' ' || c > '~' || length >= B.FRAME_SIZE - 1 {
          Fail(B.Protocol);
          length, text, discard := 0, "", true;
        } else {
          Append(c, now);
        }
      }
      return c == '\n';
    }

    method Append(c: char, now: u32)
      requires Valid() && c != '\0' && length < B.FRAME_SIZE - 1
      modifies this`length, this`text, this`partialStarted, line
      ensures Valid()
      ensures Model() == old(Model()).(line := old(text) + [c],
                                       partialStarted := if old(text) == "" then now else old(partialStarted))
    {
      if length == 0 { partialStarted := now; }
      line[length] := c;
      length, text := length + 1, text + [c];
      assert line[..length] == line[..length - 1] + [c];
    }

    method Command(now: u32, ghost s: string)
      requires Valid() && text == "" && CString(line[..], 0, s)
      modifies this`power, this`link, this`reply, line
      ensures Valid() && Model() == B.Command(old(Model()), s, now)
    {
      var order := ReadOrder(s);
      match order {
        case None => Fail(B.Protocol);
        case Some(o) => Execute(o, now);
      }
    }

    /** Splits and parses the line in place. */
    method ReadOrder(ghost s: string) returns (order: Option<B.Order>)
      requires Valid() && text == "" && CString(line[..], 0, s)
      modifies line
      ensures Valid()
      ensures order == B.Parse(s)
    {
      var split, at := SplitFields(line, 5, s);
      if !split { return None; }
      order := ReadFields(at, Split(s));
    }

    method ReadFields(at: seq<nat>, ghost fs: seq<string>) returns (order: Option<B.Order>)
      requires |fs| == |at| == 5 && FieldsAt(line[..], at, fs)
      ensures order == B.ReadOrder(fs)
    {
      var h1 := Equals(line, at[0], "H1", fs[0]);
      var n := Length(line, at[2], fs[2]);
      var sequence := ParseDigits(line, at[3], fs[3]);
      var token := ParseDigits(line, at[4], fs[4]);
      var hex, session := HexField(line, at[2], fs[2]);
      if !h1 || n != 16 || sequence.None? || token.None? || !hex { return None; }
      var op := Name(at[1], fs[1]);
      return Some(B.Order(op, session, sequence.value, token.value));
    }

    /** The operation's name, as the comparisons see it. */
    method Name(at: nat, ghost s: string) returns (op: string)
      requires CString(line[..], at, s)
      ensures op == s
    {
      op := "";
      CStringAt(line[..], at, s, 0);
      while line[at + |op|] != '\0'
        invariant |op| <= |s| && op == s[..|op|]
        invariant at + |s| < line.Length && (line[at + |op|] == '\0' <==> |op| == |s|)
        decreases |s| - |op|
      {
        CStringAt(line[..], at, s, |op|);
        op := op + [line[at + |op|]];
        CStringAt(line[..], at, s, |op|);
      }
    }

    method Execute(o: B.Order, now: u32)
      requires Valid() && text == ""
      modifies this`power, this`link, this`reply
      ensures Valid() && Model() == B.Execute(old(Model()), o, now)
    {
      if o.op == "HELLO" {
        Hello(o, now);
        return;
      }
      var objection := Objection(o, now);
      if objection.Some? {
        Fail(objection.value);
        return;
      }
      Obey(o, now);
    }

    method Hello(o: B.Order, now: u32)
      requires Valid() && text == ""
      modifies this`power, this`link, this`reply
      ensures Valid() && Model() == B.Hello(old(Model()), o, now)
    {
      Fail(B.Greeted);
      if o.sequence != 0 || o.token != 0 || (link.connected && o.session == link.session) {
        Fail(B.Replay);
        return;
      }
      link := Link(o.session, true, 0, 1, now);
      power := power.(canArm := true);
      reply := reply.(ok := true);
    }

    method Objection(o: B.Order, now: u32) returns (r: Option<B.Reason>)
      ensures r == B.Objection(Model(), o, now)
    {
      if !link.connected || o.session != link.session || link.sequence == 0xffff_ffff
         || o.sequence != link.sequence + 1 || o.token != link.challenge {
        return Some(B.Replay);
      }
      if o.op != "STOP" && o.op != "STATUS" && Since(now, link.issued) >= B.CHALLENGE_MS { return Some(B.Stale); }
      if link.challenge == 0xffff_ffff { return Some(B.Replay); }
      if o.op == "ARM" {
        if !power.canArm { return Some(B.Unarmed); }
      } else if o.op == "RUN" {
        if !power.armed { return Some(B.Unarmed); }
      } else if o.op != "STOP" && o.op != "STATUS" {
        return Some(B.Protocol);
      }
      return None;
    }

    method Obey(o: B.Order, now: u32)
      requires Valid() && text == "" && link.challenge != 0xffff_ffff
      modifies this`power, this`link, this`reply
      ensures Valid() && Model() == B.Obey(old(Model()), o, now)
    {
      if o.op == "ARM" {
        power, reply := power.(canArm := false, armed := true, renewed := now), reply.(reason := B.NowArmed);
      } else if o.op == "RUN" {
        power, reply := power.(on := true, renewed := now), reply.(reason := B.Running);
      } else if o.op == "STOP" {
        Fail(B.Stopped);
      }
      link := link.(sequence := o.sequence, challenge := link.challenge + 1, issued := now);
      reply := reply.(ok := true);
    }
  }
}
