/** The H1 bench guard as a function of its state, and its lease against the true
    clock: output lives on the arrival of the latest RUN. */
module Bench {
  import opened Bytes
  import opened Text
  import opened Frames
  import C = GuardClock

  const MAX32: int := 0xffff_ffff
  const LEASE_MS: int := 200
  const CHALLENGE_MS: int := 100
  const PARTIAL_MS: int := 100
  const FRAME_SIZE: int := 96

  datatype Reason =
    Boot | Stopped | Greeted | Protocol | Replay | Unarmed | Stale | LeaseOver | Partial | NowArmed | Running

  datatype State = State(
    session: string, connected: bool, sequence: u32, challenge: u32, issued: u32, renewed: u32,
    on: bool, armed: bool, canArm: bool,
    line: string, partialStarted: u32, discard: bool, ok: bool, reason: Reason)
  {
    predicate Locked() { !on && !armed && !canArm }
  }

  datatype Order = Order(op: string, session: string, sequence: u32, token: u32)

  const BOOTED: State := State("0000000000000000", false, 0, 0, 0, 0, false, false, false, "", 0, false, false, Boot)

  function Fail(g: State, reason: Reason): State {
    g.(on := false, armed := false, canArm := false, reason := reason, ok := false)
  }

  function Tick(g: State, now: u32): State {
    var h := if g.armed && Since(now, g.renewed) >= LEASE_MS then Fail(g, LeaseOver) else g;
    if h.line != "" && Since(now, h.partialStarted) >= PARTIAL_MS
    then Fail(h, Partial).(line := "", discard := true) else h
  }

  /** The bench parser takes leading zeros. */
  function Digits(s: string): Option<u32> {
    if s != "" && AllDigits(s) && Value(s) < TWO32 then Some(Value(s)) else None
  }

  function ReadOrder(fs: seq<string>): Option<Order>
    requires |fs| == 5
  {
    if fs[0] != "H1" || |fs[2]| != 16 || Digits(fs[3]).None? || Digits(fs[4]).None? || !AllHex(fs[2]) then None
    else Some(Order(fs[1], fs[2], Digits(fs[3]).value, Digits(fs[4]).value))
  }

  /** Exactly five fields, the last not empty. */
  function Parse(line: string): Option<Order> {
    var fs := Split(line);
    if |fs| != 5 || fs[4] == "" then None else ReadOrder(fs)
  }

  function Hello(g: State, o: Order, now: u32): State {
    if o.sequence != 0 || o.token != 0 || (g.connected && o.session == g.session) then Fail(g, Replay)
    else Fail(g, Greeted).(session := o.session, connected := true, canArm := true, ok := true,
                           sequence := 0, challenge := 1, issued := now)
  }

  predicate Current(g: State, o: Order) {
    g.connected && o.session == g.session && g.sequence != MAX32 && o.sequence == g.sequence + 1
    && o.token == g.challenge
  }

  function Objection(g: State, o: Order, now: u32): Option<Reason> {
    if !Current(g, o) then Some(Replay)
    else if o.op !in {"STOP", "STATUS"} && Since(now, g.issued) >= CHALLENGE_MS then Some(Stale)
    else if g.challenge == MAX32 then Some(Replay)
    else if (o.op == "ARM" && !g.canArm) || (o.op == "RUN" && !g.armed) then Some(Unarmed)
    else if o.op !in {"ARM", "RUN", "STOP", "STATUS"} then Some(Protocol)
    else None
  }

  /** What the operation itself changes. */
  function Performed(g: State, op: string, now: u32): State {
    if op == "ARM" then g.(canArm := false, armed := true, renewed := now, reason := NowArmed)
    else if op == "RUN" then g.(on := true, renewed := now, reason := Running)
    else if op == "STOP" then Fail(g, Stopped) else g
  }

  function Obey(g: State, o: Order, now: u32): State
    requires g.challenge != MAX32
  {
    Performed(g, o.op, now).(sequence := o.sequence, challenge := g.challenge + 1, issued := now, ok := true)
  }

  function Execute(g: State, o: Order, now: u32): State {
    if o.op == "HELLO" then Hello(g, o, now)
    else if Objection(g, o, now).Some? then Fail(g, Objection(g, o, now).value)
    else Obey(g, o, now)
  }

  function Command(g: State, line: string, now: u32): State {
    match Parse(line)
    case None => Fail(g, Protocol)
    case Some(o) => Execute(g, o, now)
  }

  function Take(g: State, c: char, now: u32): State {
    if c == '\n' then
      if g.discard then g.(discard := false, line := "", ok := false) else Command(g.(line := ""), g.line, now)
    else if g.discard then g
    else if !(' ' <= c <= '~') || |g.line| >= FRAME_SIZE - 1 then Fail(g, Protocol).(line := "", discard := true)
    else g.(line := g.line + [c], partialStarted := if g.line == "" then now else g.partialStarted)
  }

  function Feed(g: State, c: char, now: u32): State { Take(Tick(g, now), c, now) }

  // ---- latches ----

  ghost predicate Latched(g: State) {
    (g.on ==> g.armed && g.sequence >= 2) && (g.armed ==> g.connected && !g.canArm && g.sequence >= 1)
    && (g.canArm ==> g.connected && g.challenge >= 1)
  }

  /** The order that a byte completes. */
  function Completed(g: State, c: char): Option<Order> {
    if c == '\n' && !g.discard then Parse(g.line) else None
  }

  /** The byte completes a RUN that is obeyed. */
  predicate Runs(g: State, c: char, now: u32) {
    Completed(g, c).Some? && Completed(g, c).value.op == "RUN"
    && Objection(g.(line := ""), Completed(g, c).value, now).None?
  }

  predicate Arms(g: State, c: char, now: u32) {
    Completed(g, c).Some? && Completed(g, c).value.op == "ARM"
    && Objection(g.(line := ""), Completed(g, c).value, now).None?
  }

  /** What an order can do to the authority: keep it, lock it, open a session, arm, or run. */
  lemma ExecuteCases(g: State, o: Order, now: u32)
    requires Latched(g)
    ensures var h, fine := Execute(g, o, now), Objection(g, o, now).None?;
            Latched(h)
            && if o.op == "RUN" && fine then g.armed && h.on && h.armed && h.renewed == now
               else if o.op == "ARM" && fine then g.canArm && h.armed && !h.on && h.renewed == now
               else (h.on == g.on && h.armed == g.armed && h.renewed == g.renewed) || (!h.on && !h.armed)
  {
  }

  lemma TakeCases(g: State, c: char, now: u32)
    requires Latched(g)
    ensures var h := Take(g, c, now);
            Latched(h)
            && if Runs(g, c, now) then g.armed && h.on && h.armed && h.renewed == now
               else if Arms(g, c, now) then g.canArm && h.armed && !h.on && h.renewed == now
               else (h.on == g.on && h.armed == g.armed && h.renewed == g.renewed) || (!h.on && !h.armed)
  {
    if Completed(g, c).Some? { ExecuteCases(g.(line := ""), Completed(g, c).value, now); }
  }

  lemma TickKeepsLatches(g: State, now: u32)
    requires Latched(g)
    ensures Latched(Tick(g, now))
    ensures Tick(g, now).armed ==> g.armed && Tick(g, now).renewed == g.renewed && Since(now, g.renewed) < LEASE_MS
    ensures Tick(g, now).on ==> g.on
    ensures Tick(g, now).armed ==> Tick(g, now).on == g.on
  {
  }

  // ---- the true clock ----

  /** The guard, its boot time, its latest reading and the arrival of what last
      renewed its lease. */
  datatype Clocked = Clocked(g: State, boot: int, last: int, renewedAt: int)

  ghost predicate Timed(c: Clocked) {
    c.boot <= c.last && Latched(c.g)
    && (c.g.armed ==> c.g.renewed == C.Dev(c.boot, c.renewedAt) && 0 <= c.last - c.renewedAt < LEASE_MS)
  }

  datatype Arrival = Poll(t: int) | Byte(ch: char, t: int)

  function Polled(c: Clocked, t: int): Clocked { c.(g := Tick(c.g, C.Dev(c.boot, t)), last := t) }

  function Fed(c: Clocked, ch: char, t: int): Clocked {
    var p, now := Polled(c, t), C.Dev(c.boot, t);
    p.(g := Take(p.g, ch, now), renewedAt := if Runs(p.g, ch, now) || Arms(p.g, ch, now) then t else p.renewedAt)
  }

  function Next(c: Clocked, e: Arrival): Clocked { if e.Poll? then Polled(c, e.t) else Fed(c, e.ch, e.t) }

  lemma PollKeepsTime(c: Clocked, t: int)
    requires Timed(c) && C.Near(c.last, t)
    ensures Timed(Polled(c, t))
    ensures Polled(c, t).g.armed ==> 0 <= t - c.renewedAt < LEASE_MS
  {
    TickKeepsLatches(c.g, C.Dev(c.boot, t));
    if c.g.armed { C.WrappedDifference(c.boot, c.renewedAt, t); }
  }

  lemma NextKeepsTime(c: Clocked, e: Arrival)
    requires Timed(c) && C.Near(c.last, e.t)
    ensures Timed(Next(c, e))
  {
    PollKeepsTime(c, e.t);
    if e.Byte? { TakeCases(Polled(c, e.t).g, e.ch, C.Dev(c.boot, e.t)); }
  }

  /** Input e, met in state c, is an obeyed RUN. */
  predicate RunArrives(c: Clocked, e: Arrival) {
    e.Byte? && Runs(Polled(c, e.t).g, e.ch, C.Dev(c.boot, e.t))
  }

  /** A run from power-on: states[i] is what input i meets, and runs[i] says
      whether that input was obeyed as a RUN. */
  datatype Trace = Trace(states: seq<Clocked>, inputs: seq<Arrival>, runs: seq<bool>)
  {
    ghost predicate Shaped() { |states| == |inputs| + 1 && |runs| == |inputs| }
  }

  ghost predicate DeviceRun(boot: int, r: Trace) {
    r.Shaped() && r.states[0] == Clocked(BOOTED, boot, boot, boot)
    && forall i :: 0 <= i < |r.inputs| ==> DeviceStep(r, i)
  }

  ghost predicate DeviceStep(r: Trace, i: nat)
    requires r.Shaped() && i < |r.inputs|
  {
    C.Near(r.states[i].last, r.inputs[i].t) && r.states[i + 1] == Next(r.states[i], r.inputs[i])
    && r.runs[i] == RunArrives(r.states[i], r.inputs[i])
  }

  lemma StepKeepsTime(boot: int, r: Trace, i: nat)
    requires DeviceRun(boot, r) && i < |r.inputs| && Timed(r.states[i])
    ensures Timed(r.states[i + 1])
  {
    assert DeviceStep(r, i);
    NextKeepsTime(r.states[i], r.inputs[i]);
  }

  lemma {:induction false} EveryStateIsTimed(boot: int, r: Trace, n: nat)
    requires DeviceRun(boot, r) && n <= |r.inputs|
    ensures Timed(r.states[n])
  {
    if n > 0 {
      EveryStateIsTimed(boot, r, n - 1);
      StepKeepsTime(boot, r, n - 1);
    }
  }

  /** Before state n, input i was the latest obeyed RUN, and it renewed the lease. */
  ghost predicate LatestRun(r: Trace, n: nat, i: nat)
    requires r.Shaped() && n <= |r.inputs|
  {
    i < n && r.runs[i] && (forall j :: i < j < n ==> !r.runs[j]) && r.states[n].renewedAt == r.inputs[i].t
  }

  /** Only an obeyed RUN turns output on or renews the lease under it. */
  lemma StepMovesLease(boot: int, r: Trace, i: nat)
    requires DeviceRun(boot, r) && i < |r.inputs| && Timed(r.states[i]) && r.states[i + 1].g.on
    ensures if r.runs[i] then r.states[i + 1].renewedAt == r.inputs[i].t
            else r.states[i].g.on && r.states[i + 1].renewedAt == r.states[i].renewedAt
  {
    assert DeviceStep(r, i);
    var c, e := r.states[i], r.inputs[i];
    TickKeepsLatches(c.g, C.Dev(c.boot, e.t));
    if e.Byte? { TakeCases(Polled(c, e.t).g, e.ch, C.Dev(c.boot, e.t)); }
  }

  lemma {:induction false} OnMeansLatestRun(boot: int, r: Trace, n: nat) returns (i: nat)
    requires DeviceRun(boot, r) && n <= |r.inputs| && r.states[n].g.on
    ensures LatestRun(r, n, i)
  {
    i := n - 1;
    EveryStateIsTimed(boot, r, i);
    StepMovesLease(boot, r, i);
    if !r.runs[i] { i := OnMeansLatestRun(boot, r, i); }
  }

  /** Whenever output is on after a reading at true time t, less than 200 ms have
      passed since the latest obeyed RUN arrived; nothing since has extended it. */
  lemma OutputIsYoung(boot: int, r: Trace, t: int) returns (i: nat)
    requires DeviceRun(boot, r)
    requires C.Near(r.states[|r.inputs|].last, t) && Polled(r.states[|r.inputs|], t).g.on
    ensures LatestRun(r, |r.inputs|, i) && 0 <= t - r.inputs[i].t < LEASE_MS
  {
    var c := r.states[|r.inputs|];
    EveryStateIsTimed(boot, r, |r.inputs|);
    PollKeepsTime(c, t);
    TickKeepsLatches(c.g, C.Dev(c.boot, t));
    i := OnMeansLatestRun(boot, r, |r.inputs|);
  }
}
