/** The guard against an unbounded true clock of which it sees only a wrapped
    32-bit count since boot. */
module GuardClock {
  import opened Bytes
  import opened Frames
  import opened Guard
  import opened GuardRuns

  /** What the device reads at true time `t`. */
  function Dev(boot: int, t: int): u32 { (t - boot) % TWO32 }

  /** The guard together with the true times behind its stamps. `issuedAt` is
      when the current challenge was issued; `leaseAt` is the start of the current
      lease, as the guard measures it. */
  datatype Clocked = Clocked(g: State, boot: int, last: int, issuedAt: int, leaseAt: int)

  /** Readings close enough together that a lease cannot hide a full wrap. */
  predicate Near(last: int, t: int) { last <= t < last + TWO32 - LEASE_MS }

  ghost predicate Timed(c: Clocked) {
    && c.boot <= c.last
    && Latched(c.g)
    && (c.g.generation != 0 ==> c.g.issued == Dev(c.boot, c.issuedAt) && c.boot <= c.issuedAt <= c.last)
    && (c.g.armed ==> c.g.leaseIssued == Dev(c.boot, c.leaseAt) && c.leaseAt <= c.issuedAt
                      && c.last - c.leaseAt < c.g.duration)
  }

  /** Wrapped subtraction of nearby readings is true elapsed time. */
  lemma WrappedDifference(boot: int, earlier: int, later: int)
    requires 0 <= later - earlier < TWO32
    ensures Since(Dev(boot, later), Dev(boot, earlier)) == later - earlier
  {
    var a: int, b: int := Dev(boot, later), Dev(boot, earlier);
    assert a - b == later - earlier - TWO32 * ((later - boot) / TWO32 - (earlier - boot) / TWO32);
    ModOfShift(later - earlier, (later - boot) / TWO32 - (earlier - boot) / TWO32);
  }

  lemma ModOfShift(x: int, k: int)
    requires 0 <= x < TWO32
    ensures (x - TWO32 * k) % TWO32 == x
  {
  }

  lemma BackDated(boot: int, t: int, stamp: u32)
    ensures Dev(boot, t - Since(Dev(boot, t), stamp)) == stamp
  {
    var d := Dev(boot, t) - stamp;
    assert t - boot == TWO32 * ((t - boot) / TWO32) + Dev(boot, t);
    assert Since(Dev(boot, t), stamp) == d - TWO32 * (d / TWO32);
    ModOfShift(stamp, -((t - boot) / TWO32 + d / TWO32));
  }

  function Polled(c: Clocked, t: int): Clocked {
    c.(g := Tick(c.g, Dev(c.boot, t)), last := t)
  }

  /** A reading keeps the timing invariant, and output that survives it is
      younger than its lease. */
  lemma PollKeepsTime(c: Clocked, t: int)
    requires Timed(c) && Near(c.last, t)
    ensures Timed(Polled(c, t))
    ensures Polled(c, t).g.armed ==>
              t - c.leaseAt < c.g.duration <= LEASE_MS && c.g.armed && Polled(c, t).g.leaseIssued == c.g.leaseIssued
  {
    TickCases(c.g, Dev(c.boot, t));
    QuietOrLockKeepsLatches(c.g, Polled(c, t).g);
    if c.g.armed { WrappedDifference(c.boot, c.leaseAt, t); }
  }

  lemma QuietKeepsTime(c: Clocked, h: State, t: int)
    requires Timed(c) && (QuietStep(c.g, h) || LockStep(c.g, h)) && c.last <= t && (h.armed ==> t == c.last)
    ensures Timed(c.(g := h, last := t))
  {
    QuietOrLockKeepsLatches(c.g, h);
  }

  lemma HelloKeepsTime(dev: Device, c: Clocked, h: State)
    requires Timed(c) && HelloStep(dev, c.g, h, Dev(c.boot, c.last))
    ensures Timed(c.(g := h, issuedAt := c.last))
  {
    HelloKeepsLatches(dev, c.g, h, Dev(c.boot, c.last));
  }

  lemma StatusKeepsTime(dev: Device, c: Clocked, h: State)
    requires Timed(c) && StatusStep(dev, c.g, h, Dev(c.boot, c.last))
    ensures Timed(c.(g := h, issuedAt := c.last))
  {
    StatusKeepsLatches(dev, c.g, h, Dev(c.boot, c.last));
  }

  /** The true start of the lease that a granted frame opens. */
  function LeaseStart(c: Clocked, f: Frame, after: int): int {
    match f.op
    case Bind => c.leaseAt
    case Arm => after - Since(Dev(c.boot, after), c.g.issued)
    case Run => c.issuedAt
  }

  /** A grant keeps the timing invariant. A RUN is measured in true time: its
      challenge cannot have wrapped, because the armed lease bounds its age. */
  lemma GrantKeepsTime(dev: Device, c: Clocked, h: State, f: Frame, after: int, clock: Readings)
    requires Timed(c) && Latched(h) && Near(c.last, after) && clock.after == Dev(c.boot, after)
    requires GrantEffect(dev, c.g, h, f, Dev(c.boot, c.last), clock)
    ensures Timed(c.(g := h, last := after, issuedAt := after, leaseAt := LeaseStart(c, f, after)))
    ensures f.op.Run? ==> 0 <= after - c.issuedAt < PERMIT_MS && after - c.issuedAt < f.duration
  {
    if f.op.Run? {
      WrappedDifference(c.boot, c.leaseAt, after);
      WrappedDifference(c.boot, c.issuedAt, after);
    } else if f.op.Arm? {
      BackDated(c.boot, after, c.g.issued);
    }
  }

  // ---- whole runs of one boot ----

  /** A poll, or a byte with the true times of its readings. */
  datatype Arrival = Poll(t: int) | Byte(ch: char, t: int, before: int, after: int)

  ghost predicate Verifies(g: State, ch: char, now: u32) {
    Completed(g, ch).Some? && g.ready && Objection(g.(line := ""), Completed(g, ch).value, now).None?
  }

  /** Times never run backwards, and consecutive readings are near. */
  ghost predicate Admissible(c: Clocked, e: Arrival) {
    Near(c.last, e.t) && (e.Byte? ==> e.t <= e.before <= e.after && Near(e.t, e.after))
  }

  datatype Effect = Nothing | Greets | Challenges | Grants(frame: Frame)

  ghost function EffectOf(dev: Device, g: State, ch: char, now: u32, clock: Readings): Effect {
    if ch == '\n' && !g.discard && g.line == "H2 HELLO" && g.ready && g.generation != MAX32 then Greets
    else if ch == '\n' && !g.discard && g.line == "H2 STATUS" && g.ready && g.generation != 0 && g.challenge != MAX32
    then Challenges
    else if Completed(g, ch).Some?
            && GrantStep(dev, g.(line := ""), Take(dev, g, ch, now, clock), Completed(g, ch).value, now, clock)
    then Grants(Completed(g, ch).value)
    else Nothing
  }

  ghost function Fed(dev: Device, c: Clocked, e: Arrival): Clocked
    requires e.Byte?
  {
    var p := Polled(c, e.t);
    var now, clock := Dev(c.boot, e.t), Readings(Dev(c.boot, e.before), Dev(c.boot, e.after));
    var h := Take(dev, p.g, e.ch, now, clock);
    var last := if Verifies(p.g, e.ch, now) then e.after else e.t;
    match EffectOf(dev, p.g, e.ch, now, clock)
    case Nothing => p.(g := h, last := last)
    case Greets => p.(g := h, issuedAt := e.t)
    case Challenges => p.(g := h, issuedAt := e.t)
    case Grants(f) => p.(g := h, last := e.after, issuedAt := e.after, leaseAt := LeaseStart(p, f, e.after))
  }

  ghost function StepClocked(dev: Device, c: Clocked, e: Arrival): Clocked {
    if e.Poll? then Polled(c, e.t) else Fed(dev, c, e)
  }

  /** A byte that only changes the line buffer, or that locks. */
  lemma NothingIsQuietOrLocks(dev: Device, g: State, ch: char, now: u32, clock: Readings)
    requires EffectOf(dev, g, ch, now, clock).Nothing?
    ensures QuietStep(g, Take(dev, g, ch, now, clock)) || LockStep(g, Take(dev, g, ch, now, clock))
    ensures Verifies(g, ch, now) ==> LockStep(g, Take(dev, g, ch, now, clock))
  {
    TakeCases(dev, g, ch, now, clock);
    if Verifies(g, ch, now) {
      CommandCases(dev, g.(line := ""), g.line, now, clock);
    }
  }

  lemma GreetsIsHello(dev: Device, g: State, ch: char, now: u32, clock: Readings)
    requires EffectOf(dev, g, ch, now, clock).Greets?
    ensures HelloStep(dev, g.(line := ""), Take(dev, g, ch, now, clock), now)
  {
  }

  lemma ChallengesIsStatus(dev: Device, g: State, ch: char, now: u32, clock: Readings)
    requires EffectOf(dev, g, ch, now, clock).Challenges?
    ensures StatusStep(dev, g.(line := ""), Take(dev, g, ch, now, clock), now)
  {
    assert "H2 STATUS" != "H2 STOP" && "H2 STATUS" != "H2 HELLO";
  }

  function ClockOf(c: Clocked, e: Arrival): Readings
    requires e.Byte?
  {
    Readings(Dev(c.boot, e.before), Dev(c.boot, e.after))
  }

  /** What a byte does to the polled guard `p`, without the parser in view. */
  ghost predicate ByteStep(dev: Device, p: Clocked, q: Clocked, e: Arrival, effect: Effect)
    requires e.Byte?
  {
    var now, g0 := Dev(p.boot, e.t), p.g.(line := "");
    match effect
    case Nothing => (QuietStep(p.g, q.g) || LockStep(p.g, q.g)) && q == p.(g := q.g, last := q.last)
                    && (q.last == e.t || (q.last == e.after && LockStep(p.g, q.g)))
    case Greets => HelloStep(dev, g0, q.g, now) && q == p.(g := q.g, issuedAt := e.t)
    case Challenges => StatusStep(dev, g0, q.g, now) && q == p.(g := q.g, issuedAt := e.t)
    case Grants(f) => GrantEffect(dev, g0, q.g, f, now, ClockOf(p, e)) && Latched(q.g)
                      && q == p.(g := q.g, last := e.after, issuedAt := e.after, leaseAt := LeaseStart(p, f, e.after))
  }

  ghost function EffectAt(dev: Device, c: Clocked, e: Arrival): Effect
    requires e.Byte?
  {
    EffectOf(dev, Polled(c, e.t).g, e.ch, Dev(c.boot, e.t), ClockOf(c, e))
  }

  lemma FedIsByteStep(dev: Device, c: Clocked, e: Arrival)
    requires e.Byte? && Latched(c.g)
    ensures ByteStep(dev, Polled(c, e.t), Fed(dev, c, e), e, EffectAt(dev, c, e))
  {
    var p, now, clock := Polled(c, e.t), Dev(c.boot, e.t), ClockOf(c, e);
    TickCases(c.g, now);
    QuietOrLockKeepsLatches(c.g, p.g);
    match EffectAt(dev, c, e) {
      case Nothing => NothingIsQuietOrLocks(dev, p.g, e.ch, now, clock);
      case Greets => GreetsIsHello(dev, p.g, e.ch, now, clock);
      case Challenges => ChallengesIsStatus(dev, p.g, e.ch, now, clock);
      case Grants(f) => GrantHasEffect(dev, p.g.(line := ""), Fed(dev, c, e).g, f, now, clock);
    }
  }

  lemma ByteStepKeepsTime(dev: Device, p: Clocked, q: Clocked, e: Arrival, effect: Effect)
    requires Timed(p) && e.Byte? && p.last == e.t && e.t <= e.after && Near(e.t, e.after)
             && ByteStep(dev, p, q, e, effect)
    ensures Timed(q)
    ensures effect.Grants? && effect.frame.op.Run? ==> 0 <= e.after - p.issuedAt < PERMIT_MS
  {
    var p0 := p.(g := p.g.(line := ""));
    match effect {
      case Nothing => QuietKeepsTime(p, q.g, q.last);
      case Greets => HelloKeepsTime(dev, p0, q.g);
      case Challenges => StatusKeepsTime(dev, p0, q.g);
      case Grants(f) => GrantKeepsTime(dev, p0, q.g, f, e.after, ClockOf(p, e));
    }
  }

  lemma FeedKeepsTime(dev: Device, c: Clocked, e: Arrival)
    requires Timed(c) && e.Byte? && Admissible(c, e)
    ensures Timed(Fed(dev, c, e))
  {
    PollKeepsTime(c, e.t);
    FedIsByteStep(dev, c, e);
    ByteStepKeepsTime(dev, Polled(c, e.t), Fed(dev, c, e), e, EffectAt(dev, c, e));
  }

  // ---- every run of one boot ----

  /** The input grants a RUN in the state it meets. */
  ghost predicate GrantsRun(dev: Device, c: Clocked, e: Arrival) {
    e.Byte? && EffectAt(dev, c, e).Grants? && EffectAt(dev, c, e).frame.op.Run?
  }

  /** A run of the device from power-on: states[i] is what input i meets, and
      runs[i] says whether that input was granted as a RUN. */
  datatype Trace = Trace(states: seq<Clocked>, inputs: seq<Arrival>, runs: seq<bool>)
  {
    ghost predicate Shaped() { |states| == |inputs| + 1 && |runs| == |inputs| }
  }

  ghost predicate DeviceRun(dev: Device, epoch: u32, boot: int, r: Trace) {
    r.Shaped() && r.states[0] == Clocked(Booted(dev, epoch), boot, boot, boot, boot)
    && forall i :: 0 <= i < |r.inputs| ==> DeviceStep(dev, r, i)
  }

  ghost predicate DeviceStep(dev: Device, r: Trace, i: nat)
    requires r.Shaped() && i < |r.inputs|
  {
    Admissible(r.states[i], r.inputs[i]) && r.states[i + 1] == StepClocked(dev, r.states[i], r.inputs[i])
    && r.runs[i] == GrantsRun(dev, r.states[i], r.inputs[i])
  }

  lemma StepKeepsTime(dev: Device, epoch: u32, boot: int, r: Trace, i: nat)
    requires DeviceRun(dev, epoch, boot, r) && i < |r.inputs| && Timed(r.states[i])
    ensures Timed(r.states[i + 1])
  {
    assert DeviceStep(dev, r, i);
    if r.inputs[i].Poll? {
      PollKeepsTime(r.states[i], r.inputs[i].t);
    } else {
      FeedKeepsTime(dev, r.states[i], r.inputs[i]);
    }
  }

  lemma {:induction false} EveryStateIsTimed(dev: Device, epoch: u32, boot: int, r: Trace, n: nat)
    requires DeviceRun(dev, epoch, boot, r) && n <= |r.inputs|
    ensures Timed(r.states[n])
  {
    if n == 0 {
      BootLatched(dev, epoch);
    } else {
      EveryStateIsTimed(dev, epoch, boot, r, n - 1);
      StepKeepsTime(dev, epoch, boot, r, n - 1);
    }
  }

  /** Before state n, input i granted the latest RUN, and the lease starts where
      the challenge of that RUN was issued. */
  ghost predicate LatestRun(r: Trace, n: nat, i: nat)
    requires r.Shaped() && n <= |r.inputs|
  {
    i < n && r.runs[i] && (forall j :: i < j < n ==> !r.runs[j]) && r.states[n].leaseAt == r.states[i].issuedAt
  }

  lemma {:induction false} OnMeansLatestRun(dev: Device, epoch: u32, boot: int, r: Trace, n: nat) returns (i: nat)
    requires DeviceRun(dev, epoch, boot, r) && n <= |r.inputs| && r.states[n].g.on
    ensures LatestRun(r, n, i)
  {
    i := n - 1;
    EveryStateIsTimed(dev, epoch, boot, r, i);
    StepMovesLease(dev, epoch, boot, r, i);
    if !r.runs[i] { i := OnMeansLatestRun(dev, epoch, boot, r, i); }
  }

  /** Only a granted RUN turns output on, and it moves the lease to its challenge. */
  lemma StepMovesLease(dev: Device, epoch: u32, boot: int, r: Trace, i: nat)
    requires DeviceRun(dev, epoch, boot, r) && i < |r.inputs| && Latched(r.states[i].g) && r.states[i + 1].g.on
    ensures if r.runs[i] then r.states[i + 1].leaseAt == r.states[i].issuedAt
            else r.states[i].g.on && r.states[i + 1].leaseAt == r.states[i].leaseAt
  {
    assert DeviceStep(dev, r, i);
    if r.runs[i] {
      RunMovesLease(dev, r.states[i], r.inputs[i]);
    } else {
      OnSurvives(dev, r.states[i], r.inputs[i]);
    }
  }

  lemma RunMovesLease(dev: Device, b: Clocked, e: Arrival)
    requires Latched(b.g) && GrantsRun(dev, b, e)
    ensures StepClocked(dev, b, e).leaseAt == b.issuedAt
  {
    FedIsByteStep(dev, b, e);
  }

  /** Only a granted RUN turns output on or moves the lease under it. */
  lemma OnSurvives(dev: Device, b: Clocked, e: Arrival)
    requires Latched(b.g) && StepClocked(dev, b, e).g.on && !GrantsRun(dev, b, e)
    ensures b.g.on && StepClocked(dev, b, e).leaseAt == b.leaseAt
  {
    TickCases(b.g, Dev(b.boot, e.t));
    if e.Byte? { FedIsByteStep(dev, b, e); }
  }

  /** Whenever output is on after a reading at true time `t`, less than the lease,
      at most 200 ms, has passed since the challenge of the latest granted RUN
      was issued; nothing that came in between has extended it. */
  lemma OutputIsYoung(dev: Device, epoch: u32, boot: int, r: Trace, t: int) returns (i: nat)
    requires DeviceRun(dev, epoch, boot, r)
    requires Near(r.states[|r.inputs|].last, t) && Polled(r.states[|r.inputs|], t).g.on
    ensures LatestRun(r, |r.inputs|, i)
    ensures t - r.states[i].issuedAt < r.states[|r.inputs|].g.duration <= LEASE_MS
  {
    var c := r.states[|r.inputs|];
    EveryStateIsTimed(dev, epoch, boot, r, |r.inputs|);
    PollKeepsTime(c, t);
    TickCases(c.g, Dev(c.boot, t));
    i := OnMeansLatestRun(dev, epoch, boot, r, |r.inputs|);
  }
}
