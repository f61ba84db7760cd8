/** The gate node step by step, as functions of its state: what each method of
    `node.py` and of the permit signer does, on every path. */
module GateSteps {
  import opened Bytes
  import opened GateNode

  datatype Config = Config(maxAgeMs: int, maxResponseMs: int, backdate: int)

  /** The arm goal the node holds itself to: `active_arm` and `goal_sequence`. */
  datatype Holder = Holder(active: Digest, goal: int)

  datatype Signer = Signer(challenges: set<Target>, seqBase: int, seqArm: int, owner: Holder, telemetry: Telemetry)

  /** The deadlines in hand: `permit_reset`, `permit_stop` and the clocks. */
  datatype Hand = Hand(reset: bool, stop: bool, remaining: int, worldRemaining: int, sim: int, wall: int)

  /** The arm action: a goal handle, a goal not yet answered, a cancel requested. */
  datatype Action = Action(goal: bool, future: bool, cancel: bool)

  /** History: the active expiry of the answer in hand, the observations, the permits. */
  datatype Book = Book(expiry: Option<int>, seen: seq<Observation>, log: seq<Entry>)

  datatype State = State(signer: Signer, world: Option<World>, hand: Hand, action: Action, failed: bool, book: Book)

  const STARTED: State :=
    State(Signer({}, 0, 0, Holder(Idle, 0), Telemetry(Idle, 0, true, false)), None,
          Hand(false, true, 200_000_000, 0, 0, 0), Action(false, false, false), false, Book(None, [], []))

  // ---- what the outside contributes ----

  /** The readings and library answers that one call of `_publish` meets. */
  datatype Io = Io(retire: Reading, command: Reading, content: int, goal: Reading, serverReady: bool, cancel: Reading)

  datatype Answer = Reply(step: Step) | InvalidInput | Failure

  /** One call of `_receive`. The further readings are those of the heartbeat, of
      the zero command on expiry, of the `reject` publication, and of an abort. */
  datatype Turn = Turn(startMs: int, startWall: int, answer: Answer, nowMs: int, elapsed: real, io: Io,
                       beat: Reading, zero: Io, rejectAnswer: Answer, rejectIo: Io, abort: Io)

  /** How an arm action ended. */
  datatype Result = Succeeded | Canceled | ActionAborted | OtherStatus | ResultRaised

  datatype Event =
    | Request(turn: Turn)
    | Message(target: Target, valid: bool, value: Telemetry)
    | GoalAnswer(raised: bool, accepted: bool, io: Io)
    | GoalResult(result: Result, io: Io)
    | AbortTimer(io: Io)

  function Min(a: int, b: int): int { if a < b then a else b }
  function Max(a: int, b: int): int { if a < b then b else a }

  // ---- signing ----

  /** The permit that would be signed now. */
  function Draft(cfg: Config, st: State, target: Target, kind: Kind, digest: Digest, from: int, span: int, start: int,
                 at: Reading): Entry {
    var origin, length := Max(0, from - cfg.backdate), Min(MAX_LEASE_NS, span);
    Entry(target, kind, digest, 1 + if target.Base? then st.signer.seqBase else st.signer.seqArm, origin, start,
          origin + length, start + length, at, st.world, st.book.expiry, st.signer.telemetry.sequence, |st.book.seen|)
  }

  function Filed(st: State, e: Entry): State {
    st.(signer := if e.target.Base? then st.signer.(seqBase := st.signer.seqBase + 1)
                  else st.signer.(seqArm := st.signer.seqArm + 1),
        book := st.book.(log := st.book.log + [e]))
  }

  /** `PermitSigner.sign` */
  function Signed(cfg: Config, st: State, target: Target, kind: Kind, digest: Digest, from: int, span: int, start: int,
                  at: Reading): (State, Outcome) {
    if target !in st.signer.challenges || span <= 0 then (st, Broken)
    else (Filed(st, Draft(cfg, st, target, kind, digest, from, span, start, at)), Done)
  }

  /** More than the reserve is left of the request, the world and the goal. */
  predicate OnTime(cfg: Config, hand: Hand, r: Reading) {
    var simAge, wallAge := r.sim - hand.sim, r.wall - hand.wall;
    var age := Max(simAge + cfg.backdate, wallAge);
    simAge >= 0 && wallAge >= 0 && age < RESERVE_NS && hand.worldRemaining - age > RESERVE_NS
    && hand.remaining - age > RESERVE_NS
  }

  /** `_permit` */
  function Permitted(cfg: Config, st: State, target: Target, kind: Kind, digest: Digest, r: Reading): (State, Outcome)
    requires !kind.Stop?
  {
    if !OnTime(cfg, st.hand, r) then (st, Expired)
    else Signed(cfg, st, target, kind, digest, st.hand.sim, st.hand.remaining, st.hand.wall, r)
  }

  /** `_stop_permit` */
  function Stopped(cfg: Config, st: State, target: Target, digest: Digest, r: Reading): State {
    Signed(cfg, st, target, Stop, digest, r.sim, MAX_LEASE_NS, r.wall, r).0
  }

  // ---- publishing ----

  /** `_publish_command` */
  function CommandSent(cfg: Config, st: State, moving: bool, io: Io): (State, Outcome) {
    if Base !in st.signer.challenges then (st, if moving then Broken else Done)
    else if !st.hand.reset && !moving && st.hand.stop then (Stopped(cfg, st, Base, Sha(io.content), io.command), Done)
    else Permitted(cfg, st, Base, if st.hand.reset then Reset else Command, Sha(io.content), io.command)
  }

  function Owned(st: State, active: Digest, goal: int): State {
    st.(signer := st.signer.(owner := Holder(active, goal)))
  }

  /** `_cancel_arm`: a signed stop clears the owner's goal. */
  function Cancelled(cfg: Config, st: State, r: Reading): State {
    var after := if ArmTarget in st.signer.challenges then Owned(Stopped(cfg, st, ArmTarget, Idle, r), Idle, 0) else st;
    if st.action.goal || st.action.future then after.(action := after.action.(cancel := true)) else after
  }

  /** `_execute_arm`: the owner names the goal before the permit for it is signed. */
  function Executed(cfg: Config, st: State, content: int, io: Io): (State, Outcome) {
    if st.action.future || st.action.goal || !io.serverReady then (st, Broken)
    else
      var (after, o) := Permitted(cfg, Owned(st, Sha(content), st.signer.owner.goal), ArmTarget, Goal, Sha(content),
                                  io.goal);
      if o != Done then (after, o)
      else (Owned(after, Sha(content), after.signer.seqArm).(action := Action(after.action.goal, true, false)), Done)
  }

  /** `_arm_renewal_retiring` */
  predicate Retiring(cfg: Config, st: State, step: Step, r: Reading) {
    var simAge, wallAge := r.sim - st.hand.sim, r.wall - st.hand.wall;
    var age := Max(simAge + cfg.backdate, wallAge);
    var telemetry, owner := st.signer.telemetry, st.signer.owner;
    !(st.hand.reset || st.hand.stop || !step.arm.NoArm? || st.action.future || step.moving)
    && step.status.active.Active? && step.status.active.isArm && owner.active != Idle
    && !(telemetry.holding && !telemetry.expired) && telemetry.admitted == owner.active
    && telemetry.sequence == owner.goal
    && step.status.activeExpiresMs.Some? && step.status.worldAgeMs.Some? && step.status.worldAgeMs.value >= 0
    && var left := Ns(step.status.activeExpiresMs.value) - st.hand.sim;
       simAge >= 0 && wallAge >= 0 && age < RESERVE_NS && st.hand.worldRemaining - age > RESERVE_NS
       && Ns(cfg.maxAgeMs - step.status.worldAgeMs.value) - age > RESERVE_NS
       && left > 0 && st.hand.remaining == left && left - age <= RESERVE_NS
  }

  function Judged(st: State, step: Step): State {
    st.(hand := st.hand.(reset := ExplicitRearm(step), stop := Stopping(step)))
  }

  /** The command half of `_publish`: nothing while a goal's renewal is retiring. */
  function BaseSent(cfg: Config, st: State, step: Step, io: Io): (State, Outcome) {
    if Retiring(cfg, st, step, io.retire) then (st, Done) else CommandSent(cfg, st, step.moving, io)
  }

  /** The arm half of `_publish`. */
  function ArmSent(cfg: Config, st: State, arm: ArmOut, io: Io): (State, Outcome) {
    match arm
    case NoArm => (st, Done)
    case EmptyArm => (st, Done)
    case Cancel => (Cancelled(cfg, st, io.cancel), Done)
    case Execute(content) => Executed(cfg, st, content, io)
    case InvalidArm => (st, Broken)
  }

  /** `_publish`: command first, then the arm. */
  function Published(cfg: Config, st: State, step: Step, io: Io): (State, Outcome) {
    var (sent, o) := BaseSent(cfg, Judged(st, step), step, io);
    if o != Done then (sent, o) else ArmSent(cfg, sent, step.arm, io)
  }

  // ---- the heartbeat ----

  /** Disarmed, or with telemetry naming another goal, nothing is renewed. */
  predicate Renews(st: State) {
    ArmTarget in st.signer.challenges
    && (st.hand.reset || (!st.hand.stop && !st.signer.telemetry.holding
                          && st.signer.telemetry.admitted == st.signer.owner.active
                          && st.signer.telemetry.sequence == st.signer.owner.goal))
  }

  /** `_heartbeat` */
  function Beaten(cfg: Config, st: State, r: Reading): (State, Outcome) {
    if !Renews(st) then (st, Done)
    else if st.hand.reset then
      var (after, o) := Permitted(cfg, st, ArmTarget, Reset, Idle, r);
      (if o == Done then Owned(after, Idle, 0) else after, o)
    else Permitted(cfg, st, ArmTarget, Lease, st.signer.owner.active, r)
  }

  // ---- one request ----

  /** What the answer leaves of the request, in whole milliseconds. */
  function MsLeft(cfg: Config, step: Step, startMs: int): int {
    var age := if step.status.worldAgeMs.Some? then step.status.worldAgeMs.value else 0;
    var left := Min(200, cfg.maxAgeMs - age);
    if step.status.activeExpiresMs.Some? then Min(left, step.status.activeExpiresMs.value - startMs) else left
  }

  /** The accepted-world clock sees the answer, under the request's wall start. */
  function Observing(st: State, step: Step): State {
    st.(world := Observed(st.world, step.worldStampMs, st.hand.wall),
        book := st.book.(expiry := step.status.activeExpiresMs,
                         seen := st.book.seen + [Observation(step.worldStampMs, st.hand.wall)]))
  }

  /** The deadline arithmetic of `_receive`. */
  function Budgeted(cfg: Config, st: State, step: Step, startMs: int): (State, Outcome) {
    var worldLeft := Remaining(st.world, st.hand.sim, st.hand.wall, Ns(cfg.maxAgeMs));
    var span := Min(Ns(MsLeft(cfg, step, startMs)), worldLeft);
    if span <= 0 then (st.(hand := st.hand.(worldRemaining := worldLeft)), Expired)
    else (st.(hand := st.hand.(worldRemaining := worldLeft, remaining := span)), Done)
  }

  predicate Beats(cfg: Config, st: State, turn: Turn, retiring: bool)
    requires turn.answer.Reply?
  {
    !st.action.cancel && !st.failed && !retiring && !st.action.future
    && LeaseRenewable(turn.answer.step, turn.elapsed, cfg.maxAgeMs, cfg.maxResponseMs)
  }

  /** The body of `_receive` after the answer, up to the exception it may raise. */
  function Acted(cfg: Config, st: State, turn: Turn): (State, Outcome)
    requires turn.answer.Reply?
  {
    var step := turn.answer.step;
    var timely := FreshActuation(step, turn.elapsed, turn.nowMs, cfg.maxAgeMs, cfg.maxResponseMs);
    if timely != Done then (st, timely) else
    var (budgeted, o) := Budgeted(cfg, Observing(st, step), step, turn.startMs);
    if o != Done then (budgeted, o) else Delivered(cfg, budgeted, turn)
  }

  function Delivered(cfg: Config, st: State, turn: Turn): (State, Outcome)
    requires turn.answer.Reply?
  {
    var step := turn.answer.step;
    var retiring := Retiring(cfg, Judged(st, step), step, turn.io.retire);
    var (published, o) := Published(cfg, st, step, turn.io);
    if o != Done || !Beats(cfg, published, turn, retiring) then (published, o) else Beaten(cfg, published, turn.beat)
  }

  // ---- failure ----

  /** `_publish_zero` */
  function ZeroSent(cfg: Config, st: State, io: Io): State {
    CommandSent(cfg, st.(hand := st.hand.(reset := false, stop := true)), false, io).0
  }

  /** Zero, then cancel: on expiry, and in `_abort`. */
  function Quieted(cfg: Config, st: State, io: Io): State { Cancelled(cfg, ZeroSent(cfg, st, io), io.cancel) }

  /** `_abort` */
  function Aborted(cfg: Config, st: State, io: Io): State {
    if st.failed then st else Quieted(cfg, st.(failed := true), io)
  }

  /** The engine's answer to `reject` is published; an exception aborts. */
  function RejectSent(cfg: Config, st: State, turn: Turn): State {
    if !turn.rejectAnswer.Reply? then Aborted(cfg, st, turn.abort) else
    var (published, o) := Published(cfg, st, turn.rejectAnswer.step, turn.rejectIo);
    if o == Done then published else Aborted(cfg, published, turn.abort)
  }

  /** The `except` branches of `_receive`; on expiry the node checks the answer to
      its `reject` before it publishes it. */
  function Recovered(cfg: Config, st: State, o: Outcome, turn: Turn): State {
    match o
    case Done => st
    case Broken => Aborted(cfg, st, turn.abort)
    case Expired =>
      var quiet := Quieted(cfg, st, turn.zero);
      if turn.rejectAnswer.Reply? && !Rejecting(turn.rejectAnswer.step) then Aborted(cfg, quiet, turn.abort)
      else RejectSent(cfg, quiet, turn)
  }

  /** The request's clocks, taken before the engine is asked. */
  function Asking(st: State, turn: Turn): State {
    st.(hand := st.hand.(sim := Ns(turn.startMs), wall := turn.startWall))
  }

  function Resolved(cfg: Config, st: State, turn: Turn): State {
    match turn.answer
    case Failure => Aborted(cfg, st, turn.abort)
    case InvalidInput => RejectSent(cfg, st, turn)
    case Reply(_) => var (acted, o) := Acted(cfg, st, turn); Recovered(cfg, acted, o, turn)
  }

  /** `_receive` */
  function Received(cfg: Config, st: State, turn: Turn): State {
    if st.failed then st else Resolved(cfg, Asking(st, turn), turn)
  }

  // ---- the other callbacks ----

  /** `PermitSigner.observe`; an invalid message ends the process. */
  function Telemetered(st: State, target: Target, valid: bool, value: Telemetry): State {
    if !valid then st.(failed := true) else
    st.(signer := st.signer.(challenges := st.signer.challenges + {target},
                             telemetry := if target.ArmTarget? then value else st.signer.telemetry))
  }

  /** `_on_arm_goal` */
  function GoalAnswered(cfg: Config, st: State, raised: bool, accepted: bool, io: Io): State {
    if raised then Aborted(cfg, st, io) else
    var held := st.(action := st.action.(goal := true, future := false));
    if st.failed then held
    else if accepted then if st.action.cancel then Cancelled(cfg, held, io.cancel) else held
    else if st.action.cancel then held.(action := Action(false, false, false))
    else Aborted(cfg, held, io)
  }

  /** `_on_arm_result` */
  function GoalResulted(cfg: Config, st: State, result: Result, io: Io): State {
    if result.Succeeded? || (st.action.cancel && (result.Canceled? || result.ActionAborted?))
    then st.(action := st.action.(goal := false, cancel := false))
    else Aborted(cfg, st, io)
  }

  function Happened(cfg: Config, st: State, e: Event): State {
    match e
    case Request(turn) => Received(cfg, st, turn)
    case Message(target, valid, value) => Telemetered(st, target, valid, value)
    case GoalAnswer(raised, accepted, io) => GoalAnswered(cfg, st, raised, accepted, io)
    case GoalResult(result, io) => GoalResulted(cfg, st, result, io)
    case AbortTimer(io) => if st.failed then ZeroSent(cfg, st, io) else st
  }
}
