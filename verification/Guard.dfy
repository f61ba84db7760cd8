/** The H2 controller guard as a function of its state: one byte or one clock
    reading at a time. The class PermitGuard refines these functions. */
module Guard {
  import opened Bytes
  import opened Text
  import opened Payload
  import opened Frames

  const MAX32: int := 0xffff_ffff
  const LEASE_MS: int := 200
  const PERMIT_MS: int := 50
  const PARTIAL_MS: int := 100
  const BIND_MS: int := 500
  const FRAME_SIZE: int := 256

  datatype Reason =
    | Boot | Provision | Stopped | Greeted | Exhausted | Protocol | Replay | Unarmed | Stale
    | Signature | LeaseOver | Partial | NowBound | NowArmed | Running | Transmit

  /** The library primitives, as ideal functions: the challenge PRF, and the two
      verdicts on (bytes, tag). A session key is named by the signed bytes it is
      derived from, so `macOk` takes those bytes in place of the key. */
  datatype Crypto = Crypto(
    nonceOf: seq<byte> -> Bytes16,
    bindOk: (seq<byte>, seq<byte>) -> bool,
    macOk: (seq<byte>, seq<byte>, seq<byte>) -> bool)

  /** What is provisioned and never changes. */
  datatype Device = Device(install: Bytes16, controller: Bytes32, keysPresent: bool, crypto: Crypto)

  datatype State = State(
    epoch: u32, ready: bool,
    generation: u32, sequence: u32, challenge: u32, issued: u32, nonce: Bytes16,
    on: bool, armed: bool, canArm: bool, bound: bool, canBind: bool, session: seq<byte>,
    leaseIssued: u32, duration: u32,
    line: string, partialStarted: u32, discard: bool,
    ok: bool, reason: Reason, verificationMs: u32)
  {
    /** No output, no lease, and nothing but a HELLO can start again. */
    predicate Locked() { !on && !armed && !canArm && !bound && !canBind && session == [] }
  }

  /** The two clock readings taken around verification. */
  datatype Readings = Readings(before: u32, after: u32)

  const ZERO16: Bytes16 := [0, 0, 0, 0, 0, 0, 0, 0, 0, 0, 0, 0, 0, 0, 0, 0]

  function Booted(dev: Device, epoch: u32): State {
    var g := State(epoch, epoch != 0 && dev.keysPresent, 0, 0, 0, 0, ZERO16,
                   false, false, false, false, false, [], 0, 0, "", 0, false, false, Boot, 0);
    if g.ready then g else Fail(g, Provision)
  }

  function Fail(g: State, reason: Reason): State {
    g.(on := false, armed := false, canArm := false, bound := false, canBind := false, session := [],
       ok := false, reason := reason)
  }

  function Tick(g: State, now: u32): State {
    var h := if g.armed && Since(now, g.leaseIssued) >= g.duration then Fail(g, LeaseOver) else g;
    if h.line != "" && Since(now, h.partialStarted) >= PARTIAL_MS
    then Fail(h, Partial).(line := "", discard := true) else h
  }

  /** The challenge that the current nonce answers for. */
  function ChallengeBytes(dev: Device, g: State): seq<byte> {
    LedBytes(Claim(dev.install, g.epoch, g.generation, g.sequence, g.challenge, g.issued, 0, 2, ZERO16))
  }

  function Issue(dev: Device, g: State, now: u32): State {
    var h := g.(issued := now);
    h.(nonce := dev.crypto.nonceOf(ChallengeBytes(dev, h)))
  }

  function Hello(dev: Device, g: State, now: u32): State {
    if g.generation == MAX32 then Fail(g, Exhausted).(ready := false)
    else Issue(dev, Fail(g, Greeted).(generation := g.generation + 1, sequence := 0, challenge := 1), now)
           .(canBind := true, ok := true)
  }

  function Status(dev: Device, g: State, now: u32): State {
    if g.generation == 0 || g.challenge == MAX32 then Fail(g, Exhausted)
    else Issue(dev, g.(challenge := g.challenge + 1), now).(ok := true)
  }

  // ---- permit frames ----

  predicate Current(g: State, f: Frame) {
    g.generation != 0 && f.generation == g.generation && g.sequence != MAX32 && f.sequence == g.sequence + 1
    && f.token == g.challenge && g.challenge != MAX32 && f.stamp == g.issued
  }

  /** The reason for refusing a frame before any cryptography, if there is one. */
  function Objection(g: State, f: Frame, now: u32): Option<Reason> {
    if !Current(g, f) then Some(Replay)
    else if f.op.Bind? then
      if f.duration != 0 || !g.canBind || g.bound || g.armed || g.on then Some(Unarmed)
      else if Since(now, g.issued) >= BIND_MS then Some(Stale) else None
    else
      if f.duration == 0 || f.duration > LEASE_MS || Since(now, g.issued) >= PERMIT_MS then Some(Stale)
      else if !g.bound || (f.op.Arm? && !g.canArm) || (f.op.Run? && !g.armed) then Some(Unarmed)
      else None
  }

  function Action(op: Op): u32 { match op case Arm => 0 case Run => 1 case Bind => 2 }

  function ClaimOf(dev: Device, g: State, f: Frame): Claim {
    Claim(dev.install, g.epoch, f.generation, f.sequence, f.token, f.stamp, f.duration, Action(f.op), g.nonce)
  }

  /** The bytes whose authenticity decides the frame. */
  function CheckedBytes(dev: Device, g: State, f: Frame): seq<byte>
    requires f.Shaped()
  {
    if f.op.Bind? then BindBytes(ClaimOf(dev, g, f), f.peer, dev.controller) else LedBytes(ClaimOf(dev, g, f))
  }

  predicate Authentic(dev: Device, g: State, f: Frame)
    requires f.Shaped()
  {
    var bytes := CheckedBytes(dev, g, f);
    if f.op.Bind? then dev.crypto.bindOk(bytes, f.tag) else dev.crypto.macOk(g.session, bytes, f.tag)
  }

  /** Output is off while the tag is checked; a good key exchange sets the key. */
  function Checking(dev: Device, g: State, f: Frame, clock: Readings): State
    requires f.Shaped()
  {
    g.(on := false,
       session := if f.op.Bind? && Authentic(dev, g, f) then CheckedBytes(dev, g, f) else g.session,
       verificationMs := Since(clock.after, clock.before))
  }

  /** The state between verification and the final verdict. */
  function Verifying(dev: Device, g: State, f: Frame, clock: Readings): State
    requires f.Shaped()
  {
    Tick(Checking(dev, g, f, clock), clock.after)
  }

  /** The objections that remain once verification has taken its time. */
  predicate InTime(h: State, f: Frame, after: u32) {
    if f.op.Bind? then h.canBind && Since(after, h.issued) < BIND_MS
    else h.verificationMs < PERMIT_MS && Since(after, h.issued) < PERMIT_MS && Since(after, h.issued) < f.duration
         && (f.op.Arm? ==> h.canArm) && (f.op.Run? ==> h.armed)
  }

  function LateReason(h: State, f: Frame, after: u32): Reason {
    if !f.op.Bind? && h.verificationMs < PERMIT_MS && Since(after, h.issued) < PERMIT_MS
       && Since(after, h.issued) < f.duration then LeaseOver else Stale
  }

  /** The state after an authenticated, timely frame. */
  function Granted(dev: Device, h: State, f: Frame, after: u32): State
    requires h.challenge != MAX32
  {
    var k := if f.op.Bind? then h.(canBind := false, bound := true, canArm := true, reason := NowBound)
             else h.(canArm := false, armed := true, on := f.op.Run?, leaseIssued := h.issued, duration := f.duration,
                     reason := if f.op.Run? then Running else NowArmed);
    Issue(dev, k.(sequence := f.sequence, challenge := k.challenge + 1), after).(ok := true)
  }

  function Permit(dev: Device, g: State, f: Frame, now: u32, clock: Readings): State
    requires f.Shaped()
  {
    var objection := Objection(g, f, now);
    if objection.Some? then Fail(g, objection.value) else
    var h := Verifying(dev, g, f, clock);
    if !Authentic(dev, g, f) then Fail(h, Signature)
    else if !InTime(h, f, clock.after) then Fail(h, LateReason(h, f, clock.after))
    else Granted(dev, h, f, clock.after)
  }

  /** One complete line. */
  function Command(dev: Device, g: State, line: string, now: u32, clock: Readings): State {
    if line == "H2 STOP" then Fail(g, Stopped).(ok := true)
    else if !g.ready then Fail(g, Provision)
    else if line == "H2 HELLO" then Hello(dev, g, now)
    else if line == "H2 STATUS" then Status(dev, g, now)
    else match Parse(line)
      case None => Fail(g, Protocol)
      case Some(f) => PrintParse(line); Permit(dev, g, f, now, clock)
  }

  /** What a byte does after the clock reading that comes with it. */
  function Take(dev: Device, g: State, c: char, now: u32, clock: Readings): State {
    if c == '\n' then
      if g.discard then g.(discard := false, line := "", ok := false)
      else Command(dev, g.(line := ""), g.line, now, clock)
    else if g.discard then g
    else if !(' ' <= c <= '~') || |g.line| >= FRAME_SIZE - 1 then Fail(g, Protocol).(line := "", discard := true)
    else g.(line := g.line + [c], partialStarted := if g.line == "" then now else g.partialStarted)
  }

  function Feed(dev: Device, g: State, c: char, now: u32, clock: Readings): State {
    Take(dev, Tick(g, now), c, now, clock)
  }

  // ---- what one step can do ----

  /** Everything but the line buffer and the reply flags is as it was. */
  predicate SameAuthority(g: State, h: State) {
    SameCounters(g, h) && h.on == g.on && h.armed == g.armed && h.canArm == g.canArm && h.bound == g.bound
    && h.canBind == g.canBind && h.session == g.session && h.leaseIssued == g.leaseIssued && h.duration == g.duration
  }

  predicate SameCounters(g: State, h: State) {
    h.epoch == g.epoch && h.generation == g.generation && h.sequence == g.sequence && h.challenge == g.challenge
    && h.issued == g.issued && h.nonce == g.nonce && (h.ready ==> g.ready)
  }

  /** A grant happened: the one way to gain authority after HELLO. */
  ghost predicate GrantStep(dev: Device, g: State, h: State, f: Frame, now: u32, clock: Readings) {
    f.Shaped() && g.ready && Objection(g, f, now).None? && Authentic(dev, g, f)
    && InTime(Verifying(dev, g, f, clock), f, clock.after)
    && h == Granted(dev, Verifying(dev, g, f, clock), f, clock.after)
  }

  ghost predicate HelloStep(dev: Device, g: State, h: State, now: u32) {
    g.ready && g.generation != MAX32 && h == Hello(dev, g, now)
  }

  ghost predicate StatusStep(dev: Device, g: State, h: State, now: u32) {
    g.ready && g.generation != 0 && g.challenge != MAX32 && h == Status(dev, g, now)
  }

  ghost predicate QuietStep(g: State, h: State) { SameAuthority(g, h) && h.ready == g.ready }

  ghost predicate LockStep(g: State, h: State) { SameCounters(g, h) && h.Locked() }

  /** The frame a byte completes, if it completes one. */
  function Completed(g: State, c: char): Option<Frame> {
    if c == '\n' && !g.discard && g.line !in {"H2 STOP", "H2 HELLO", "H2 STATUS"} then Parse(g.line) else None
  }

  /** Every byte is quiet, locks, greets, re-challenges, or grants one frame. */
  lemma TakeCases(dev: Device, g: State, c: char, now: u32, clock: Readings)
    ensures var h, g0 := Take(dev, g, c, now, clock), g.(line := "");
            || QuietStep(g, h)
            || LockStep(g, h)
            || (c == '\n' && !g.discard && g.line == "H2 HELLO" && HelloStep(dev, g0, h, now))
            || (c == '\n' && !g.discard && g.line == "H2 STATUS" && StatusStep(dev, g0, h, now))
            || (Completed(g, c).Some? && GrantStep(dev, g0, h, Completed(g, c).value, now, clock))
  {
    if c == '\n' && !g.discard { CommandCases(dev, g.(line := ""), g.line, now, clock); }
  }

  lemma CommandCases(dev: Device, g: State, line: string, now: u32, clock: Readings)
    requires g.line == ""
    ensures var h := Command(dev, g, line, now, clock);
            || LockStep(g, h)
            || (line == "H2 HELLO" && HelloStep(dev, g, h, now))
            || (line == "H2 STATUS" && StatusStep(dev, g, h, now))
            || (line !in {"H2 STOP", "H2 HELLO", "H2 STATUS"} && Parse(line).Some?
                && GrantStep(dev, g, h, Parse(line).value, now, clock))
  {
    if line !in {"H2 STOP", "H2 HELLO", "H2 STATUS"} && g.ready && Parse(line).Some? {
      PrintParse(line);
      PermitCases(dev, g, Parse(line).value, now, clock);
    }
  }

  lemma VerifyingKeepsCounters(dev: Device, g: State, f: Frame, clock: Readings)
    requires f.Shaped()
    ensures SameCounters(g, Verifying(dev, g, f, clock))
  {
  }

  lemma FailLocks(g: State, h: State, reason: Reason)
    requires SameCounters(g, h)
    ensures LockStep(g, Fail(h, reason))
  {
  }

  lemma PermitCases(dev: Device, g: State, f: Frame, now: u32, clock: Readings)
    requires f.Shaped() && g.ready && g.line == ""
    ensures var h := Permit(dev, g, f, now, clock);
            LockStep(g, h) || GrantStep(dev, g, h, f, now, clock)
  {
    var objection, h := Objection(g, f, now), Verifying(dev, g, f, clock);
    VerifyingKeepsCounters(dev, g, f, clock);
    if objection.Some? {
      FailLocks(g, g, objection.value);
    } else if !Authentic(dev, g, f) {
      FailLocks(g, h, Signature);
    } else if !InTime(h, f, clock.after) {
      FailLocks(g, h, LateReason(h, f, clock.after));
    }
  }
}
