/** The history in which the gate node leases a goal that it never signed. */
module GateOrphan {
  import opened Bytes
  import opened GateNode
  import opened GateSteps
  import opened GateRuns
  import opened GateSafety

  const CFG: Config := Config(200, 50, 10_000_000)

  /** Both clocks at a whole millisecond; the wall clock runs 1000 ms behind. */
  function At(ms: int): Reading { Reading(Ns(ms), Ns(ms - 1000)) }

  function IoAt(ms: int): Io { Io(At(ms), At(ms), 0, At(ms), true, At(ms)) }

  /** A request at `ms`, answered within 10 ms by this step. */
  function TurnAt(ms: int, step: Step, io: Io): Turn {
    Turn(ms, Ns(ms - 1000), Reply(step), ms + 10, 10.0, io, At(ms), IoAt(ms + 70), Reply(DISARMED), IoAt(ms + 80),
         IoAt(ms + 90))
  }

  const ARMED: Status := Status(Sources, Normal, NoGoal, None, Some(0), false, true, true)
  const MOVING: Status := Status(Sources, Normal, Active(true), Some(1200), Some(0), false, true, true)
  const DISARMED: Step := Step(false, NoArm, Status(Nobody, Normal, NoGoal, None, Some(0), false, true, true), false,
                               None)

  /** The engine executes goal 7, but signing happens 60 ms after the request: the
      permit is refused as expired, and the arm has no challenge for a stop. */
  const LATE_GOAL: Turn := TurnAt(1000, Step(false, Execute(7), MOVING, false, Some(1000)), IoAt(1060))

  /** The operator re-arms; a reset would be signed if the arm had a challenge. */
  const REARM: Turn := TurnAt(1100, Step(false, NoArm, ARMED, true, Some(1100)), IoAt(1100))

  /** The arm's first message reports goal 7 under number zero. */
  const REPORT: Telemetry := Telemetry(Sha(7), 0, false, false)

  /** An ordinary armed answer. */
  const TICK: Turn := TurnAt(1200, Step(false, NoArm, ARMED, false, Some(1200)), IoAt(1200))

  const HISTORY: seq<Event> := [Request(LATE_GOAL), Request(REARM), Message(ArmTarget, true, REPORT), Request(TICK)]

  const ORPHANED: Signer := Signer({}, 0, 0, Holder(Sha(7), 0), Telemetry(Idle, 0, true, false))
  const FREE: Action := Action(false, false, false)

  function Saw(ms: int): Observation { Observation(Some(ms), Ns(ms - 1000)) }

  const AFTER_GOAL: State :=
    State(ORPHANED, Some(World(Ns(1000), 0)), Hand(false, true, Ns(200), Ns(200), Ns(1000), 0), FREE, false,
          Book(Some(1200), [Saw(1000)], []))

  const AFTER_REARM: State :=
    State(ORPHANED, Some(World(Ns(1100), Ns(100))), Hand(true, false, Ns(200), Ns(200), Ns(1100), Ns(100)), FREE, false,
          Book(None, [Saw(1000), Saw(1100)], []))

  const ASKED: State := STARTED.(hand := Hand(false, true, 200_000_000, 0, Ns(1000), 0))

  /** The answer leaves 200 ms, but the permit is signed too late. */
  const TOO_LATE: State := AFTER_GOAL.(hand := AFTER_GOAL.hand.(stop := false))

  lemma GoalIsRefused()
    ensures Acted(CFG, ASKED, LATE_GOAL) == (TOO_LATE, Expired)
  {
    var step := LATE_GOAL.answer.step;
    var (budgeted, o) := Budgeted(CFG, Observing(ASKED, step), step, 1000);
    assert o == Done && budgeted.hand == AFTER_GOAL.hand;
    var judged := Judged(budgeted, step);
    assert !OnTime(CFG, judged.hand, At(1060));
    assert BaseSent(CFG, judged, step, LATE_GOAL.io) == (judged, Done);
    assert Executed(CFG, judged, 7, LATE_GOAL.io) == (Owned(judged, Sha(7), 0), Expired);
    assert Owned(judged, Sha(7), 0) == TOO_LATE;
  }

  lemma RefusalIsQuiet()
    ensures Recovered(CFG, TOO_LATE, Expired, LATE_GOAL) == AFTER_GOAL
  {
    assert Quieted(CFG, TOO_LATE, LATE_GOAL.zero) == TOO_LATE.(hand := TOO_LATE.hand.(stop := true));
  }

  lemma GoalExpires()
    ensures Received(CFG, STARTED, LATE_GOAL) == AFTER_GOAL
  {
    GoalIsRefused();
    RefusalIsQuiet();
  }

  lemma RearmFindsNoArm()
    ensures Received(CFG, AFTER_GOAL, REARM) == AFTER_REARM
  {
    var asked := AFTER_GOAL.(hand := AFTER_GOAL.hand.(sim := Ns(1100), wall := Ns(100)));
    var step := REARM.answer.step;
    var (budgeted, o) := Budgeted(CFG, Observing(asked, step), step, 1100);
    assert o == Done && budgeted.hand == Hand(false, true, Ns(200), Ns(200), Ns(1100), Ns(100));
    assert Published(CFG, budgeted, step, REARM.io) == (Judged(budgeted, step), Done);
  }

  /** The tick signs a lease for the goal. */
  lemma TickLeases(st: State)
    requires st == Telemetered(AFTER_REARM, ArmTarget, true, REPORT)
    ensures var log := Received(CFG, st, TICK).book.log;
            |log| == 1 && IsLease(log[0]) && log[0].digest == Sha(7) && log[0].named == 0
  {
    var asked := st.(hand := st.hand.(sim := Ns(1200), wall := Ns(200)));
    var step := TICK.answer.step;
    var (budgeted, o) := Budgeted(CFG, Observing(asked, step), step, 1200);
    assert o == Done && budgeted.hand == Hand(true, false, Ns(200), Ns(200), Ns(1200), Ns(200));
    var judged := Judged(budgeted, step);
    assert Published(CFG, budgeted, step, TICK.io) == (judged, Done);
    assert Renews(judged) && OnTime(CFG, judged.hand, At(1200));
  }

  lemma LoneLease(log: seq<Entry>)
    requires |log| == 1 && IsLease(log[0]) && log[0].digest == Sha(7)
    ensures !ProperLease(log, 0) && NoArmDeed(log[..0])
  {
    assert log[..0] == [];
  }

  /** The run follows the history, state by state. */
  ghost predicate Follows(r: Run) {
    |r.events| == 4 && |r.states| == 5 && r.states[0] == STARTED
    && r.states[1] == Happened(CFG, r.states[0], r.events[0]) && r.states[2] == Happened(CFG, r.states[1], r.events[1])
    && r.states[3] == Happened(CFG, r.states[2], r.events[2]) && r.states[4] == Happened(CFG, r.states[3], r.events[3])
  }

  lemma FourSteps(r: Run)
    requires Follows(r) && EngineAt(r, 0) && EngineAt(r, 1) && EngineAt(r, 2) && EngineAt(r, 3)
    ensures NodeRun(CFG, r)
  {
    forall i | 0 <= i < 4
      ensures StepAt(CFG, r, i) && EngineAt(r, i)
    {
      if i == 0 { assert StepAt(CFG, r, 0); }
      if i == 1 { assert StepAt(CFG, r, 1); }
      if i == 2 { assert StepAt(CFG, r, 2); }
    }
  }

  lemma FirstTwo() returns (e: Event, mid: State, f: Event, after: State)
    ensures e == HISTORY[0] && f == HISTORY[1] && after == AFTER_REARM
    ensures mid == Happened(CFG, STARTED, e) && after == Happened(CFG, mid, f)
  {
    GoalExpires();
    RearmFindsNoArm();
    e, mid, f, after := Request(LATE_GOAL), AFTER_GOAL, Request(REARM), AFTER_REARM;
  }

  lemma LastTwo(st: State) returns (e: Event, mid: State, f: Event, after: State)
    requires st == AFTER_REARM
    ensures e == HISTORY[2] && f == HISTORY[3] && mid == Happened(CFG, st, e) && after == Happened(CFG, mid, f)
    ensures |after.book.log| == 1 && IsLease(after.book.log[0]) && after.book.log[0].digest == Sha(7)
  {
    e, f := Message(ArmTarget, true, REPORT), Request(TICK);
    mid := Telemetered(st, ArmTarget, true, REPORT);
    after := Received(CFG, mid, TICK);
    TickLeases(mid);
  }

  lemma HistoryFollows() returns (r: Run)
    ensures Follows(r) && r.events == HISTORY
    ensures |LogAt(r, 4)| == 1 && IsLease(LogAt(r, 4)[0]) && LogAt(r, 4)[0].digest == Sha(7)
  {
    var e0, s1, e1, s2 := FirstTwo();
    var e2, s3, e3, s4 := LastTwo(s2);
    r := Run([STARTED, s1, s2, s3, s4], [e0, e1, e2, e3]);
  }

  lemma HistoryIsAnswered(r: Run)
    requires r.events == HISTORY
    ensures EngineAt(r, 0) && EngineAt(r, 1) && EngineAt(r, 2) && EngineAt(r, 3)
    ensures LastArm(r.events, 3) == REPORT
  {
  }

  /** The lease property fails for this run of the node, and only because the
      lease is an orphan. */
  lemma OrphanLease() returns (r: Run)
    ensures r.events == HISTORY && NodeRun(CFG, r) && |LogAt(r, 4)| == 1 && IsLease(LogAt(r, 4)[0])
    ensures !ProperLease(LogAt(r, 4), 0) && OrphanAt(r, 4, 0, 3)
  {
    r := HistoryFollows();
    HistoryIsAnswered(r);
    FourSteps(r);
    LoneLease(LogAt(r, 4));
  }
}
