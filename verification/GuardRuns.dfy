/** What holds of the guard over every stream of bytes and clock readings. */
module GuardRuns {
  import opened Bytes
  import opened Frames
  import opened Guard

  /** The order of the latches, and the sequence numbers they imply. */
  ghost predicate Latched(g: State) {
    && (g.on ==> g.armed && g.sequence >= 3)
    && (g.armed ==> g.bound && g.sequence >= 2 && 0 < g.duration <= LEASE_MS)
    && (g.bound <==> g.canArm || g.armed)
    && !(g.canArm && g.armed) && !(g.bound && g.canBind)
    && (g.canArm ==> g.sequence == 1)
    && (g.canBind ==> g.sequence == 0)
    && (g.bound || g.canBind ==> g.ready && g.generation != 0)
    && (g.canBind ==> g.session == [])
    && (!g.bound ==> g.session == [])
    && (g.generation != 0 ==> g.challenge >= 1)
  }

  lemma BootLatched(dev: Device, epoch: u32)
    ensures Latched(Booted(dev, epoch))
  {
  }

  /** A clock reading changes nothing or locks. */
  lemma TickCases(g: State, now: u32)
    ensures QuietStep(g, Tick(g, now)) || LockStep(g, Tick(g, now))
    ensures Tick(g, now).ready == g.ready
    ensures !Tick(g, now).discard ==> Tick(g, now).line == g.line && !g.discard
  {
  }

  lemma QuietOrLockKeepsLatches(g: State, h: State)
    requires Latched(g) && (QuietStep(g, h) || LockStep(g, h))
    ensures Latched(h)
  {
  }

  lemma HelloKeepsLatches(dev: Device, g: State, h: State, now: u32)
    requires Latched(g) && HelloStep(dev, g, h, now)
    ensures Latched(h)
  {
  }

  lemma StatusKeepsLatches(dev: Device, g: State, h: State, now: u32)
    requires Latched(g) && StatusStep(dev, g, h, now)
    ensures Latched(h)
  {
  }

  /** What a grant needs and what it does, without the intermediate state. */
  ghost predicate GrantEffect(dev: Device, g: State, h: State, f: Frame, now: u32, clock: Readings) {
    f.Shaped() && g.ready && Current(g, f) && Authentic(dev, g, f)
    && h.epoch == g.epoch && h.generation == g.generation && h.sequence == g.sequence + 1
    && h.challenge == g.challenge + 1 && h.issued == clock.after
    && h.nonce == dev.crypto.nonceOf(ChallengeBytes(dev, h)) && h.ready && h.bound && !h.canBind
    && match f.op
       case Bind => g.canBind && h.canArm && !h.armed && !h.on && h.session == CheckedBytes(dev, g, f)
       case Arm => g.bound && g.canArm && h.armed && !h.canArm && !h.on && ActionEffect(g, h, f, now, clock)
       case Run => g.bound && g.armed && h.armed && !h.canArm && h.on && ActionEffect(g, h, f, now, clock)
                   && Since(clock.after, g.leaseIssued) < g.duration
  }

  ghost predicate ActionEffect(g: State, h: State, f: Frame, now: u32, clock: Readings) {
    h.session == g.session && h.leaseIssued == g.issued && h.duration == f.duration && 0 < f.duration <= LEASE_MS
    && Since(now, g.issued) < PERMIT_MS && Since(clock.after, g.issued) < PERMIT_MS
    && Since(clock.after, g.issued) < f.duration
  }

  lemma VerifyingKeeps(dev: Device, g: State, f: Frame, clock: Readings)
    requires f.Shaped() && g.line == ""
    ensures var h := Verifying(dev, g, f, clock);
            h.epoch == g.epoch && h.ready == g.ready && h.generation == g.generation && h.sequence == g.sequence
            && h.challenge == g.challenge && h.issued == g.issued
    ensures var h := Verifying(dev, g, f, clock);
            h.Locked() || (h.bound == g.bound && h.canBind == g.canBind && h.armed == g.armed && h.canArm == g.canArm
                           && h.session == if f.op.Bind? && Authentic(dev, g, f)
                                           then CheckedBytes(dev, g, f) else g.session)
    ensures var h := Verifying(dev, g, f, clock);
            !h.Locked() && g.armed ==> Since(clock.after, g.leaseIssued) < g.duration
  {
  }

  lemma GrantHasEffect(dev: Device, g: State, h: State, f: Frame, now: u32, clock: Readings)
    requires Latched(g) && g.line == "" && GrantStep(dev, g, h, f, now, clock)
    ensures GrantEffect(dev, g, h, f, now, clock) && Latched(h)
  {
    VerifyingKeeps(dev, g, f, clock);
  }

  lemma TakeKeepsLatches(dev: Device, g: State, c: char, now: u32, clock: Readings)
    requires Latched(g)
    ensures Latched(Take(dev, g, c, now, clock))
  {
    var h, g0 := Take(dev, g, c, now, clock), g.(line := "");
    TakeCases(dev, g, c, now, clock);
    if QuietStep(g, h) || LockStep(g, h) {
      QuietOrLockKeepsLatches(g, h);
    } else if HelloStep(dev, g0, h, now) {
      HelloKeepsLatches(dev, g0, h, now);
    } else if StatusStep(dev, g0, h, now) {
      StatusKeepsLatches(dev, g0, h, now);
    } else {
      GrantHasEffect(dev, g0, h, Completed(g, c).value, now, clock);
    }
  }

  // ---- streams ----

  /** One thing that happens to the guard: a poll of the clock, or a byte. */
  datatype Event = Poll(now: u32) | Byte(c: char, now: u32, clock: Readings)

  function Step(dev: Device, g: State, e: Event): State {
    match e
    case Poll(now) => Tick(g, now)
    case Byte(c, now, clock) => Feed(dev, g, c, now, clock)
  }

  function RunAll(dev: Device, g: State, events: seq<Event>): State {
    if events == [] then g else Step(dev, RunAll(dev, g, events[..|events| - 1]), events[|events| - 1])
  }

  lemma StepKeepsLatches(dev: Device, g: State, e: Event)
    requires Latched(g)
    ensures Latched(Step(dev, g, e))
  {
    TickCases(g, e.now);
    QuietOrLockKeepsLatches(g, Tick(g, e.now));
    if e.Byte? { TakeKeepsLatches(dev, Tick(g, e.now), e.c, e.now, e.clock); }
  }

  /** Every reachable state keeps the latch order. */
  lemma {:induction false} EveryReachableStateIsLatched(dev: Device, epoch: u32, events: seq<Event>)
    ensures Latched(RunAll(dev, Booted(dev, epoch), events))
  {
    if events == [] {
      BootLatched(dev, epoch);
    } else {
      var before := events[..|events| - 1];
      EveryReachableStateIsLatched(dev, epoch, before);
      StepKeepsLatches(dev, RunAll(dev, Booted(dev, epoch), before), events[|events| - 1]);
    }
  }

  /** The text since the last line feed, starting from what was pending. */
  function Pending(pending: string, events: seq<Event>): string {
    if events == [] then pending else
    var before, e := Pending(pending, events[..|events| - 1]), events[|events| - 1];
    if e.Poll? then before else if e.c == '\n' then "" else before + [e.c]
  }

  /** No line feed in the stream completes a HELLO line. */
  ghost predicate NoHello(pending: string, events: seq<Event>) {
    forall i :: 0 <= i < |events| && events[i].Byte? && events[i].c == '\n' ==>
      Pending(pending, events[..i]) != "H2 HELLO"
  }

  lemma LockedStep(dev: Device, g: State, e: Event, pending: string)
    requires g.Locked() && (g.discard || g.line == pending)
    requires e.Byte? && e.c == '\n' ==> pending != "H2 HELLO"
    ensures Step(dev, g, e).Locked()
    ensures Step(dev, g, e).discard
            || Step(dev, g, e).line == if e.Poll? then pending else if e.c == '\n' then "" else pending + [e.c]
  {
    TickCases(g, e.now);
    var g1 := Tick(g, e.now);
    if e.Byte? { TakeCases(dev, g1, e.c, e.now, e.clock); }
  }

  /** A locked guard stays locked under any stream of bytes and readings that
      does not complete a HELLO line, whatever tags the bytes carry. */
  lemma {:induction false} OnlyHelloUnlocks(dev: Device, g: State, events: seq<Event>)
    requires g.Locked() && NoHello(g.line, events)
    ensures RunAll(dev, g, events).Locked()
    ensures RunAll(dev, g, events).discard || RunAll(dev, g, events).line == Pending(g.line, events)
  {
    if events != [] {
      var n := |events| - 1;
      forall i | 0 <= i < n && events[..n][i].Byte? && events[..n][i].c == '\n'
        ensures Pending(g.line, events[..n][..i]) != "H2 HELLO"
      {
        assert events[..n][..i] == events[..i];
        assert events[..n][i] == events[i];
      }
      OnlyHelloUnlocks(dev, g, events[..n]);
      LockedStep(dev, RunAll(dev, g, events[..n]), events[n], Pending(g.line, events[..n]));
    }
  }

  // ---- the story of a session ----

  /** What the guard granted, in order. */
  datatype Mark = Greeting(generation: u32) | Grant(op: Op, generation: u32, sequence: u32)

  ghost function MarkOf(dev: Device, g: State, e: Event): Option<Mark> {
    if e.Poll? then None else
    var g1 := Tick(g, e.now);
    if e.c == '\n' && !g1.discard && g1.line == "H2 HELLO" && g1.ready && g1.generation != MAX32
    then Some(Greeting(g1.generation + 1))
    else if Completed(g1, e.c).Some?
            && GrantStep(dev, g1.(line := ""), Step(dev, g, e), Completed(g1, e.c).value, e.now, e.clock)
    then var f := Completed(g1, e.c).value; Some(Grant(f.op, f.generation, f.sequence))
    else None
  }

  ghost function Marks(dev: Device, g: State, events: seq<Event>): seq<Mark> {
    if events == [] then [] else
    var before := events[..|events| - 1];
    var mark := MarkOf(dev, RunAll(dev, g, before), events[|events| - 1]);
    Marks(dev, g, before) + (if mark.Some? then [mark.value] else [])
  }

  function OpAt(sequence: nat): Op { if sequence == 1 then Bind else if sequence == 2 then Arm else Run }

  /** The marks since the last greeting are BIND, ARM, RUN, RUN, ... numbered
      1, 2, 3, ... in the current generation. */
  ghost predicate Story(g: State, marks: seq<Mark>) {
    g.generation != 0 ==>
      |marks| > g.sequence && marks[|marks| - 1 - g.sequence] == Greeting(g.generation)
      && forall j :: 1 <= j <= g.sequence ==> marks[|marks| - 1 - g.sequence + j] == Grant(OpAt(j), g.generation, j)
  }

  lemma StepKeepsStory(dev: Device, g: State, e: Event, marks: seq<Mark>)
    requires Latched(g) && Story(g, marks)
    ensures var mark := MarkOf(dev, g, e);
            Story(Step(dev, g, e), marks + (if mark.Some? then [mark.value] else []))
  {
    TickCases(g, e.now);
    var g1 := Tick(g, e.now);
    QuietOrLockKeepsLatches(g, g1);
    assert Story(g1, marks);
    if e.Byte? {
      TakeKeepsStory(dev, g1, e, marks, g);
    }
  }

  /** What a mark says about the step from g to h that left it. */
  ghost predicate MarkEffect(g: State, h: State, mark: Option<Mark>) {
    match mark
    case None => h.generation == g.generation && h.sequence == g.sequence
    case Some(Greeting(generation)) => h.generation == generation && h.sequence == 0
    case Some(Grant(op, generation, sequence)) =>
      h.generation == g.generation == generation && h.sequence == g.sequence + 1 == sequence && g.generation != 0
      && match op case Bind => g.canBind case Arm => g.canArm case Run => g.armed
  }

  lemma TakeKeepsStory(dev: Device, g1: State, e: Event, marks: seq<Mark>, g: State)
    requires e.Byte? && g1 == Tick(g, e.now) && Latched(g1) && Story(g1, marks)
    ensures var mark := MarkOf(dev, g, e);
            Story(Step(dev, g, e), marks + (if mark.Some? then [mark.value] else []))
  {
    TakeLeavesMark(dev, g1, e, g);
    EffectKeepsStory(g1, Step(dev, g, e), MarkOf(dev, g, e), marks);
  }

  lemma TakeLeavesMark(dev: Device, g1: State, e: Event, g: State)
    requires e.Byte? && g1 == Tick(g, e.now) && Latched(g1)
    ensures MarkEffect(g1, Step(dev, g, e), MarkOf(dev, g, e))
  {
    var mark := MarkOf(dev, g, e);
    if mark.None? {
      UnmarkedKeepsCounters(dev, g1, e, g);
    } else if mark.value.Grant? {
      GrantHasEffect(dev, g1.(line := ""), Step(dev, g, e), Completed(g1, e.c).value, e.now, e.clock);
    }
  }

  lemma EffectKeepsStory(g: State, h: State, mark: Option<Mark>, marks: seq<Mark>)
    requires Latched(g) && Story(g, marks) && MarkEffect(g, h, mark)
    ensures Story(h, marks + (if mark.Some? then [mark.value] else []))
  {
    if mark.None? {
      assert marks + [] == marks;
    } else if mark.value.Grant? {
      GrantExtendsStory(g, h, mark.value.op, marks);
    }
  }

  lemma UnmarkedKeepsCounters(dev: Device, g1: State, e: Event, g: State)
    requires e.Byte? && g1 == Tick(g, e.now) && MarkOf(dev, g, e).None?
    ensures Step(dev, g, e).generation == g1.generation && Step(dev, g, e).sequence == g1.sequence
  {
    TakeCases(dev, g1, e.c, e.now, e.clock);
  }

  lemma GrantExtendsStory(g: State, h: State, op: Op, marks: seq<Mark>)
    requires Latched(g) && Story(g, marks) && g.generation != 0
    requires h.generation == g.generation && h.sequence == g.sequence + 1
    requires match op case Bind => g.canBind case Arm => g.canArm case Run => g.armed
    ensures Story(h, marks + [Grant(op, h.generation, h.sequence)])
  {
    var longer := marks + [Grant(op, h.generation, h.sequence)];
    forall j | 1 <= j <= h.sequence
      ensures longer[|longer| - 1 - h.sequence + j] == Grant(OpAt(j), h.generation, j)
    {
      if j < h.sequence { assert longer[|marks| - 1 - g.sequence + j] == marks[|marks| - 1 - g.sequence + j]; }
    }
  }

  /** Every path to ON is a HELLO, then BIND, ARM and RUNs numbered from 1, all
      in the current generation, and nothing else since that HELLO. */
  lemma {:induction false} EveryPathToOn(dev: Device, epoch: u32, events: seq<Event>)
    ensures var g, marks := RunAll(dev, Booted(dev, epoch), events), Marks(dev, Booted(dev, epoch), events);
            Story(g, marks) && (g.on ==> g.generation != 0 && g.sequence >= 3)
  {
    EveryReachableStateIsLatched(dev, epoch, events);
    if events != [] {
      var before := events[..|events| - 1];
      EveryPathToOn(dev, epoch, before);
      EveryReachableStateIsLatched(dev, epoch, before);
      StepKeepsStory(dev, RunAll(dev, Booted(dev, epoch), before), events[|events| - 1],
                     Marks(dev, Booted(dev, epoch), before));
    }
  }
}
