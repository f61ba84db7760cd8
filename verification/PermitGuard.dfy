/** The controller guard as the object that runs: flags, counters and a line
    buffer updated in place. Every method is proved to compute the function of
    the same name in module Guard. */
module PermitGuardClass {
  import opened Bytes
  import opened Text
  import opened Payload
  import opened Frames
  import opened LineBuffer
  import G = Guard

  datatype Counters = Counters(generation: u32, sequence: u32, challenge: u32, issued: u32, nonce: Bytes16)
  datatype Power = Power(on: bool, armed: bool, canArm: bool, bound: bool, canBind: bool, session: seq<byte>)
  datatype Lease = Lease(issued: u32, duration: u32)
  datatype Reply = Reply(ok: bool, reason: G.Reason, verificationMs: u32)

  /** The payload buffers of `issue` and of verification. */
  method PackPermit(claim: Claim) returns (bytes: seq<byte>)
    ensures bytes == LedBytes(claim)
  {
    var out := new byte[PAYLOAD_SIZE];
    WritePayload(out, claim);
    assert out[..] == out[..PAYLOAD_SIZE];
    return out[..];
  }

  method PackBind(claim: Claim, peer: Bytes32, controller: Bytes32) returns (bytes: seq<byte>)
    ensures bytes == BindBytes(claim, peer, controller)
  {
    var out := new byte[BIND_SIZE];
    WriteBindPayload(out, claim, peer, controller);
    return out[..];
  }

  // ---- the parser ----

  /** Splits and parses the line in place. */
  method ReadFrame(line: array<char>, ghost s: string) returns (frame: Option<Frame>)
    requires CString(line[..], 0, s)
    modifies line
    ensures frame == Parse(s)
  {
    var binding := BindPrefix(line, s);
    var count := if binding then 9 else 8;
    var split, at := SplitFields(line, count, s);
    if !split { return None; }
    ghost var fs := Split(s);
    frame := ReadFields(line, at, binding, fs);
  }

  /** `!strncmp(line_, "H2 BIND ", 8)` */
  method BindPrefix(line: array<char>, ghost s: string) returns (yes: bool)
    requires CString(line[..], 0, s)
    ensures yes <==> IsBind(s)
  {
    yes := StartsWith(line, "H2 BIND ", s);
  }

  method StartsWith(line: array<char>, prefix: string, ghost s: string) returns (yes: bool)
    requires CString(line[..], 0, s) && '\0' !in prefix
    ensures yes <==> prefix <= s
  {
    var i := 0;
    while i < |prefix|
      invariant i <= |prefix| && i <= |s| && s[..i] == prefix[..i]
    {
      CStringAt(line[..], 0, s, i);
      assert prefix[i] in prefix;
      if line[i] != prefix[i] { return false; }
      i := i + 1;
    }
    return true;
  }

  method ReadFields(line: array<char>, at: seq<nat>, binding: bool, ghost fs: seq<string>)
    returns (frame: Option<Frame>)
    requires |fs| == |at| == (if binding then 9 else 8) && FieldsAt(line[..], at, fs)
    ensures frame == Read(fs, binding)
  {
    var h2 := Equals(line, at[0], "H2", fs[0]);
    var arm := Equals(line, at[1], "ARM", fs[1]);
    var run := Equals(line, at[1], "RUN", fs[1]);
    var n := ReadNumbers(line, at, fs);
    var tag, peer := ReadKeys(line, at, binding, fs);
    frame := Assemble(h2, arm, run, binding, n, tag, peer);
  }

  method ReadNumbers(line: array<char>, at: seq<nat>, ghost fs: seq<string>) returns (n: seq<Option<u32>>)
    requires |fs| == |at| >= 7 && FieldsAt(line[..], at, fs)
    ensures n == [Number(fs[2]), Number(fs[3]), Number(fs[4]), Number(fs[5]), Number(fs[6])]
  {
    n := [];
    while |n| < 5
      invariant |n| <= 5 && forall k :: 0 <= k < |n| ==> n[k] == Number(fs[2 + k])
      decreases 5 - |n|
    {
      var ok, value := ParseNumber(line, at[2 + |n|], fs[2 + |n|]);
      n := n + [if ok then Some(value) else None];
    }
  }

  method ReadKeys(line: array<char>, at: seq<nat>, binding: bool, ghost fs: seq<string>)
    returns (tag: Option<seq<byte>>, peer: Option<seq<byte>>)
    requires |fs| == |at| == (if binding then 9 else 8) && FieldsAt(line[..], at, fs)
    ensures tag == Unhex(fs[if binding then 8 else 7], if binding then 64 else 32)
    ensures peer == if binding then Unhex(fs[7], 32) else Some([])
  {
    var last := if binding then 8 else 7;
    var ok, bytes := ParseHex(line, at[last], if binding then 64 else 32, fs[last]);
    tag := if ok then Some(bytes) else None;
    peer := Some([]);
    if binding {
      ok, bytes := ParseHex(line, at[7], 32, fs[7]);
      peer := if ok then Some(bytes) else None;
    }
  }

  // ---- the guard ----

  const OFF: Power := Power(false, false, false, false, false, [])

  class PermitGuard {
    const dev: G.Device
    const epoch: u32
    const line: array<char>
    var ready: bool
    var count: Counters
    var power: Power
    var lease: Lease
    var length: nat
    ghost var text: string  // what the buffer holds so far
    var partialStarted: u32
    var discard: bool
    var reply: Reply

    ghost predicate Valid()
      reads this`length, this`text, line
    {
      line.Length == G.FRAME_SIZE && length < G.FRAME_SIZE && text == line[..length] && '\0' !in text
    }

    /** The guard state this object stands for. */
    ghost function Model(): G.State
      reads this
    {
      G.State(epoch, ready, count.generation, count.sequence, count.challenge, count.issued, count.nonce,
              power.on, power.armed, power.canArm, power.bound, power.canBind, power.session,
              lease.issued, lease.duration, text, partialStarted, discard,
              reply.ok, reply.reason, reply.verificationMs)
    }

    constructor (dev: G.Device, epoch: u32)
      ensures Valid() && fresh(line) && this.dev == dev && this.epoch == epoch
      ensures Model() == G.Booted(dev, epoch)
    {
      this.dev := dev;
      this.epoch := epoch;
      line := new char[G.FRAME_SIZE](i => '\0');
      count := Counters(0, 0, 0, 0, G.ZERO16);
      power, lease := OFF, Lease(0, 0);
      length, text, partialStarted, discard := 0, "", 0, false;
      reply := Reply(false, G.Boot, 0);
      ready := epoch != 0 && dev.keysPresent;
      new;
      if !ready { Fail(G.Provision); }
    }

    method Fail(reason: G.Reason)
      requires Valid()
      modifies this`power, this`reply
      ensures Valid() && Model() == G.Fail(old(Model()), reason)
    {
      power := OFF;
      reply := reply.(ok := false, reason := reason);
    }

    method Tick(now: u32)
      requires Valid()
      modifies this`power, this`reply, this`length, this`text, this`discard
      ensures Valid() && Model() == G.Tick(old(Model()), now)
    {
      if power.armed && Since(now, lease.issued) >= lease.duration { Fail(G.LeaseOver); }
      if length != 0 && Since(now, partialStarted) >= G.PARTIAL_MS {
        Fail(G.Partial);
        DropLine();
      }
    }

    /** Forget the partial line and ignore what is left of it. */
    method DropLine()
      requires Valid()
      modifies this`length, this`text, this`discard
      ensures Valid() && Model() == old(Model()).(line := "", discard := true)
    {
      length, text, discard := 0, "", true;
    }

    method Feed(c: char, now: u32, clock: G.Readings) returns (replyReady: bool)
      requires Valid()
      modifies this, line
      ensures Valid() && Model() == G.Feed(dev, old(Model()), c, now, clock)
      ensures replyReady <==> c == '\n'
    {
      Tick(now);
      if c == '\n' {
        if discard {
          discard, length, text := false, 0, "";
          reply := reply.(ok := false);
        } else {
          ghost var s := text;
          line[length] := '\0';
          length, text := 0, "";
          assert line[0..0 + |s|] == s;
          Command(now, clock, s);
        }
      } else if !discard {
        if c < ' ' || c > '~' || length >= G.FRAME_SIZE - 1 {
          Fail(G.Protocol);
          DropLine();
        } else {
          Append(c, now);
        }
      }
      return c == '\n';
    }

    method Append(c: char, now: u32)
      requires Valid() && c != '\0' && length < G.FRAME_SIZE - 1
      modifies this`length, this`text, this`partialStarted, line
      ensures Valid()
      ensures Model() == old(Model()).(line := old(text) + [c],
                                       partialStarted := if old(text) == "" then now else old(partialStarted))
    {
      if length == 0 { partialStarted := now; }
      line[length] := c;
      length, text := length + 1, text + [c];
      assert line[..length] == line[..length - 1] + [c];
    }

    method Issue(now: u32)
      requires Valid() && text == ""
      modifies this`count
      ensures Valid() && Model() == G.Issue(dev, old(Model()), now)
    {
      count := count.(issued := now);
      var bytes := PackPermit(Claim(dev.install, epoch, count.generation, count.sequence, count.challenge, count.issued,
                                    0, 2, G.ZERO16));
      count := count.(nonce := dev.crypto.nonceOf(bytes));
    }

    method Command(now: u32, clock: G.Readings, ghost s: string)
      requires Valid() && text == "" && CString(line[..], 0, s)
      modifies this, line
      ensures Valid() && Model() == G.Command(dev, old(Model()), s, now, clock)
    {
      var stop := Equals(line, 0, "H2 STOP", s);
      if stop {
        Fail(G.Stopped);
        reply := reply.(ok := true);
        return;
      }
      if !ready {
        Fail(G.Provision);
        return;
      }
      var hello := Equals(line, 0, "H2 HELLO", s);
      if hello {
        Hello(now);
        return;
      }
      var status := Equals(line, 0, "H2 STATUS", s);
      if status {
        Status(now);
        return;
      }
      var frame := ReadFrame(line, s);
      match frame {
        case None => Fail(G.Protocol);
        case Some(f) =>
          PrintParse(s);
          Permit(f, now, clock);
      }
    }

    method Hello(now: u32)
      requires Valid() && text == ""
      modifies this`ready, this`count, this`power, this`reply
      ensures Valid() && Model() == G.Hello(dev, old(Model()), now)
    {
      Fail(G.Greeted);
      if count.generation == 0xffff_ffff {
        ready := false;
        Fail(G.Exhausted);
        return;
      }
      Challenge(count.(generation := count.generation + 1, sequence := 0, challenge := 1), now);
      power := power.(canBind := true);
    }

    /** New counters, a fresh challenge for them, and an OK reply. */
    method Challenge(next: Counters, now: u32)
      requires Valid() && text == ""
      modifies this`count, this`reply
      ensures Valid()
      ensures var g := old(Model()).(generation := next.generation, sequence := next.sequence,
                                         challenge := next.challenge);
              Model() == G.Issue(dev, g.(issued := next.issued, nonce := next.nonce), now).(ok := true)
    {
      count := next;
      Issue(now);
      reply := reply.(ok := true);
    }

    method Status(now: u32)
      requires Valid() && text == ""
      modifies this`count, this`power, this`reply
      ensures Valid() && Model() == G.Status(dev, old(Model()), now)
    {
      if count.generation == 0 || count.challenge == 0xffff_ffff {
        Fail(G.Exhausted);
        return;
      }
      Challenge(count.(challenge := count.challenge + 1), now);
    }

    /** A syntactically valid frame: objections, verification, final verdict. */
    method Permit(f: Frame, now: u32, clock: G.Readings)
      requires Valid() && text == "" && f.Shaped()
      modifies this
      ensures Valid() && Model() == G.Permit(dev, old(Model()), f, now, clock)
    {
      var objection := Objection(f, now);
      if objection.Some? {
        Fail(objection.value);
        return;
      }
      var authentic := Verify(f, clock);
      if !authentic {
        Fail(G.Signature);
        return;
      }
      Settle(f, clock.after);
    }

    method Objection(f: Frame, now: u32) returns (r: Option<G.Reason>)
      ensures r == G.Objection(Model(), f, now)
    {
      if count.generation == 0 || f.generation != count.generation || count.sequence == 0xffff_ffff
         || f.sequence != count.sequence + 1 || f.token != count.challenge || count.challenge == 0xffff_ffff
         || f.stamp != count.issued {
        return Some(G.Replay);
      }
      if f.op.Bind? {
        if f.duration != 0 || !power.canBind || power.bound || power.armed || power.on { return Some(G.Unarmed); }
        if Since(now, count.issued) >= G.BIND_MS { return Some(G.Stale); }
      } else {
        if f.duration == 0 || f.duration > G.LEASE_MS || Since(now, count.issued) >= G.PERMIT_MS {
          return Some(G.Stale);
        }
        if !power.bound || (f.op.Arm? && !power.canArm) || (f.op.Run? && !power.armed) { return Some(G.Unarmed); }
      }
      return None;
    }

    /** Removes the output, builds the authenticated bytes and checks the tag. */
    method Verify(f: Frame, clock: G.Readings) returns (authentic: bool)
      requires Valid() && text == "" && f.Shaped()
      modifies this`power, this`reply, this`length, this`text, this`discard
      ensures Valid() && text == "" && authentic == G.Authentic(dev, old(Model()), f)
      ensures Model() == G.Verifying(dev, old(Model()), f, clock)
    {
      authentic := Check(f, clock);
      Tick(clock.after);
    }

    method Check(f: Frame, clock: G.Readings) returns (authentic: bool)
      requires f.Shaped()
      modifies this`power, this`reply
      ensures authentic == G.Authentic(dev, old(Model()), f)
      ensures Model() == G.Checking(dev, old(Model()), f, clock)
    {
      power := power.(on := false);
      var claim := Claim(dev.install, epoch, f.generation, f.sequence, f.token, f.stamp, f.duration, G.Action(f.op),
                         count.nonce);
      if f.op.Bind? {
        var bytes := PackBind(claim, f.peer, dev.controller);
        authentic := dev.crypto.bindOk(bytes, f.tag);
        if authentic { power := power.(session := bytes); }
      } else {
        var bytes := PackPermit(claim);
        authentic := dev.crypto.macOk(power.session, bytes, f.tag);
      }
      reply := reply.(verificationMs := Since(clock.after, clock.before));
    }

    /** The verdict on an authentic frame. */
    method Settle(f: Frame, after: u32)
      requires Valid() && text == "" && count.challenge != 0xffff_ffff
      modifies this`count, this`power, this`lease, this`reply
      ensures Valid()
      ensures G.InTime(old(Model()), f, after) ==> Model() == G.Granted(dev, old(Model()), f, after)
      ensures !G.InTime(old(Model()), f, after) ==>
                Model() == G.Fail(old(Model()), G.LateReason(old(Model()), f, after))
    {
      if f.op.Bind? {
        if !power.canBind || Since(after, count.issued) >= G.BIND_MS {
          Fail(G.Stale);
          return;
        }
        GrantBind(f, after);
      } else {
        if reply.verificationMs >= G.PERMIT_MS || Since(after, count.issued) >= G.PERMIT_MS
           || Since(after, count.issued) >= f.duration {
          Fail(G.Stale);
          return;
        }
        if (f.op.Arm? && !power.canArm) || (f.op.Run? && !power.armed) {
          Fail(G.LeaseOver);
          return;
        }
        GrantAction(f, after);
      }
    }

    method GrantBind(f: Frame, after: u32)
      requires Valid() && text == "" && count.challenge != 0xffff_ffff && f.op.Bind?
      modifies this`count, this`power, this`reply
      ensures Valid() && Model() == G.Granted(dev, old(Model()), f, after)
    {
      power := power.(canBind := false, bound := true, canArm := true);
      count := count.(sequence := f.sequence, challenge := count.challenge + 1);
      Issue(after);
      reply := reply.(reason := G.NowBound, ok := true);
    }

    method GrantAction(f: Frame, after: u32)
      requires Valid() && text == "" && count.challenge != 0xffff_ffff && !f.op.Bind?
      modifies this`count, this`power, this`lease, this`reply
      ensures Valid() && Model() == G.Granted(dev, old(Model()), f, after)
    {
      power := power.(canArm := false, armed := true, on := f.op.Run?);
      lease := Lease(count.issued, f.duration);
      count := count.(sequence := f.sequence, challenge := count.challenge + 1);
      Issue(after);
      reply := reply.(reason := if f.op.Run? then G.Running else G.NowArmed, ok := true);
    }
  }
}
