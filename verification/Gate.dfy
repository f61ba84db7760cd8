/** The gate node as the object that runs: `_receive`, its callees, and the other
    callbacks. Every method is proved to compute the function of module GateSteps
    that it is named after; the theorems about those functions are in GateSafety. */
module Gate {
  import opened Bytes
  import opened GateNode
  import opened GateSteps
  import R = GateRuns
  import S = GateSafety

  class Node {
    const cfg: Config
    var signer: Signer
    var world: Option<World>
    var hand: Hand
    var action: Action
    var failed: bool
    ghost var book: Book

    ghost function Model(): State
      reads this
    {
      State(signer, world, hand, action, failed, book)
    }

    constructor (cfg: Config)
      ensures this.cfg == cfg && Model() == STARTED
    {
      this.cfg := cfg;
      signer := Signer({}, 0, 0, Holder(Idle, 0), Telemetry(Idle, 0, true, false));
      world, hand := None, Hand(false, true, 200_000_000, 0, 0, 0);
      action, failed := Action(false, false, false), false;
      book := Book(None, [], []);
    }

    // ---- signing ----

    /** `PermitSigner.sign` */
    method Sign(target: Target, kind: Kind, digest: Digest, from: int, span: int, start: int, at: Reading)
      returns (o: Outcome)
      modifies this`signer, this`book
      ensures (Model(), o) == Signed(cfg, old(Model()), target, kind, digest, from, span, start, at)
    {
      if target !in signer.challenges || span <= 0 { return Broken; }
      ghost var e := Draft(cfg, Model(), target, kind, digest, from, span, start, at);
      if target.Base? {
        signer := signer.(seqBase := signer.seqBase + 1);
      } else {
        signer := signer.(seqArm := signer.seqArm + 1);
      }
      book := book.(log := book.log + [e]);
      return Done;
    }

    /** `_permit`: two refusals, one for the world and one for the request. */
    method Permit(target: Target, kind: Kind, digest: Digest, r: Reading) returns (o: Outcome)
      requires !kind.Stop?
      modifies this`signer, this`book
      ensures (Model(), o) == Permitted(cfg, old(Model()), target, kind, digest, r)
    {
      var simAge, wallAge := r.sim - hand.sim, r.wall - hand.wall;
      var age := Max(simAge + cfg.backdate, wallAge);
      if Min(simAge, wallAge) >= 0 && age < RESERVE_NS && hand.worldRemaining - age <= RESERVE_NS { return Expired; }
      if Min(simAge, wallAge) < 0 || age >= RESERVE_NS || hand.remaining - age <= RESERVE_NS { return Expired; }
      o := Sign(target, kind, digest, hand.sim, hand.remaining, hand.wall, r);
    }

    /** `_stop_permit` */
    method StopPermit(target: Target, digest: Digest, r: Reading)
      modifies this`signer, this`book
      ensures Model() == Stopped(cfg, old(Model()), target, digest, r)
    {
      var _ := Sign(target, Stop, digest, r.sim, MAX_LEASE_NS, r.wall, r);
    }

    // ---- publishing ----

    /** `_publish_command` */
    method PublishCommand(moving: bool, io: Io) returns (o: Outcome)
      modifies this`signer, this`book
      ensures (Model(), o) == CommandSent(cfg, old(Model()), moving, io)
    {
      if Base !in signer.challenges { return if moving then Broken else Done; }
      var stopping := !hand.reset && !moving && hand.stop;
      if stopping {
        StopPermit(Base, Sha(io.content), io.command);
        return Done;
      }
      o := Permit(Base, if hand.reset then Reset else Command, Sha(io.content), io.command);
    }

    /** `_cancel_arm` */
    method CancelArm(r: Reading)
      modifies this`signer, this`book, this`action
      ensures Model() == Cancelled(cfg, old(Model()), r)
    {
      if ArmTarget in signer.challenges {
        StopPermit(ArmTarget, Idle, r);
        signer := signer.(owner := Holder(Idle, 0));
      }
      if action.goal || action.future { action := action.(cancel := true); }
    }

    /** `_execute_arm` */
    method ExecuteArm(content: int, io: Io) returns (o: Outcome)
      modifies this`signer, this`book, this`action
      ensures (Model(), o) == Executed(cfg, old(Model()), content, io)
    {
      if action.future || action.goal || !io.serverReady { return Broken; }
      signer := signer.(owner := signer.owner.(active := Sha(content)));
      o := Permit(ArmTarget, Goal, signer.owner.active, io.goal);
      if o != Done { return; }
      signer := signer.(owner := signer.owner.(goal := signer.seqArm));
      action := action.(cancel := false, future := true);
    }

    /** `_publish`; also says whether a renewal is retiring. */
    method Publish(step: Step, io: Io) returns (o: Outcome, retiring: bool)
      modifies this`hand, this`signer, this`book, this`action
      ensures (Model(), o) == Published(cfg, old(Model()), step, io)
      ensures retiring == Retiring(cfg, Judged(old(Model()), step), step, io.retire)
    {
      hand := hand.(reset := ExplicitRearm(step), stop := Stopping(step));
      retiring := Retiring(cfg, Current(), step, io.retire);
      o := Done;
      if !retiring { o := PublishCommand(step.moving, io); }
      if o != Done { return; }
      match step.arm {
        case NoArm =>
        case EmptyArm =>
        case Cancel => CancelArm(io.cancel);
        case Execute(content) => o := ExecuteArm(content, io);
        case InvalidArm => o := Broken;
      }
    }

    /** What the read-only tests see of the node. */
    function Current(): State
      reads this`signer, this`world, this`hand, this`action, this`failed
    {
      State(signer, world, hand, action, failed, Book(None, [], []))
    }

    /** `_heartbeat` */
    method Heartbeat(r: Reading) returns (o: Outcome)
      modifies this`signer, this`book
      ensures (Model(), o) == Beaten(cfg, old(Model()), r)
    {
      if ArmTarget !in signer.challenges || (hand.stop && !hand.reset) { return Done; }
      if !hand.reset && (signer.telemetry.holding || signer.telemetry.admitted != signer.owner.active
                         || signer.telemetry.sequence != signer.owner.goal) {
        return Done;
      }
      o := Permit(ArmTarget, if hand.reset then Reset else Lease, if hand.reset then Idle else signer.owner.active, r);
      if o == Done && hand.reset { signer := signer.(owner := Holder(Idle, 0)); }
    }

    // ---- one request ----

    method Budget(step: Step, startMs: int) returns (o: Outcome)
      modifies this`hand
      ensures (Model(), o) == Budgeted(cfg, old(Model()), step, startMs)
    {
      var left := Min(200, cfg.maxAgeMs - if step.status.worldAgeMs.Some? then step.status.worldAgeMs.value else 0);
      if step.status.activeExpiresMs.Some? { left := Min(left, step.status.activeExpiresMs.value - startMs); }
      hand := hand.(worldRemaining := Remaining(world, hand.sim, hand.wall, Ns(cfg.maxAgeMs)));
      var span := Min(Ns(left), hand.worldRemaining);
      if span <= 0 { return Expired; }
      hand := hand.(remaining := span);
      return Done;
    }

    /** The body of `_receive` once the engine has answered. */
    method Act(turn: Turn) returns (o: Outcome)
      requires turn.answer.Reply?
      modifies this`world, this`hand, this`signer, this`book, this`action
      ensures (Model(), o) == Acted(cfg, old(Model()), turn)
    {
      var step := turn.answer.step;
      o := FreshActuation(step, turn.elapsed, turn.nowMs, cfg.maxAgeMs, cfg.maxResponseMs);
      if o != Done { return; }
      world := Observed(world, step.worldStampMs, hand.wall);
      book := book.(expiry := step.status.activeExpiresMs,
                    seen := book.seen + [Observation(step.worldStampMs, hand.wall)]);
      o := Budget(step, turn.startMs);
      if o != Done { return; }
      o := Deliver(turn);
    }

    method Deliver(turn: Turn) returns (o: Outcome)
      requires turn.answer.Reply?
      modifies this`hand, this`signer, this`book, this`action
      ensures (Model(), o) == Delivered(cfg, old(Model()), turn)
    {
      var retiring;
      o, retiring := Publish(turn.answer.step, turn.io);
      if o != Done { return; }
      if !action.cancel && !failed && !retiring && !action.future
         && LeaseRenewable(turn.answer.step, turn.elapsed, cfg.maxAgeMs, cfg.maxResponseMs) {
        o := Heartbeat(turn.beat);
      }
    }

    /** `_receive`: one request, from its clock readings to every error path. */
    method Receive(turn: Turn)
      modifies this
      ensures Model() == Received(cfg, old(Model()), turn)
    {
      if failed { return; }
      hand := hand.(sim := Ns(turn.startMs), wall := turn.startWall);
      match turn.answer {
        case Failure => Abort(turn.abort);
        case InvalidInput => PublishReject(turn);
        case Reply(_) =>
          var o := Act(turn);
          Recover(o, turn);
      }
    }

    // ---- failure ----

    /** `_publish_zero` */
    method PublishZero(io: Io)
      modifies this`hand, this`signer, this`book
      ensures Model() == ZeroSent(cfg, old(Model()), io)
    {
      hand := hand.(reset := false, stop := true);
      var _ := PublishCommand(false, io);
    }

    method Quiet(io: Io)
      modifies this`hand, this`signer, this`book, this`action
      ensures Model() == Quieted(cfg, old(Model()), io)
    {
      PublishZero(io);
      CancelArm(io.cancel);
    }

    /** `_abort` */
    method Abort(io: Io)
      modifies this`hand, this`signer, this`book, this`action, this`failed
      ensures Model() == Aborted(cfg, old(Model()), io)
    {
      if failed { return; }
      failed := true;
      Quiet(io);
    }

    method PublishReject(turn: Turn)
      modifies this`hand, this`signer, this`book, this`action, this`failed
      ensures Model() == RejectSent(cfg, old(Model()), turn)
    {
      if !turn.rejectAnswer.Reply? {
        Abort(turn.abort);
        return;
      }
      var o, _ := Publish(turn.rejectAnswer.step, turn.rejectIo);
      if o != Done { Abort(turn.abort); }
    }

    /** The `except` branches of `_receive`. */
    method Recover(o: Outcome, turn: Turn)
      modifies this`hand, this`signer, this`book, this`action, this`failed
      ensures Model() == Recovered(cfg, old(Model()), o, turn)
    {
      match o {
        case Done =>
        case Broken => Abort(turn.abort);
        case Expired =>
          Quiet(turn.zero);
          if turn.rejectAnswer.Reply? && !Rejecting(turn.rejectAnswer.step) {
            Abort(turn.abort);
          } else {
            PublishReject(turn);
          }
      }
    }

    // ---- the other callbacks ----

    /** `PermitSigner.observe` */
    method Telemeter(target: Target, valid: bool, value: Telemetry)
      modifies this`signer, this`failed
      ensures Model() == Telemetered(old(Model()), target, valid, value)
    {
      if !valid {
        failed := true;
        return;
      }
      signer := signer.(challenges := signer.challenges + {target});
      if target.ArmTarget? { signer := signer.(telemetry := value); }
    }

    /** `_on_arm_goal` */
    method OnArmGoal(raised: bool, accepted: bool, io: Io)
      modifies this`hand, this`signer, this`book, this`action, this`failed
      ensures Model() == GoalAnswered(cfg, old(Model()), raised, accepted, io)
    {
      if raised {
        Abort(io);
        return;
      }
      action := action.(goal := true, future := false);
      if failed { return; }
      if !accepted {
        if action.cancel {
          action := action.(goal := false, cancel := false);
        } else {
          Abort(io);
        }
        return;
      }
      if action.cancel { CancelArm(io.cancel); }
    }

    /** `_on_arm_result` */
    method OnArmResult(result: Result, io: Io)
      modifies this`hand, this`signer, this`book, this`action, this`failed
      ensures Model() == GoalResulted(cfg, old(Model()), result, io)
    {
      if result.ResultRaised?
         || (action.cancel && !(result.Canceled? || result.ActionAborted? || result.Succeeded?))
         || (!action.cancel && !result.Succeeded?) {
        Abort(io);
        return;
      }
      action := action.(goal := false, cancel := false);
    }

    /** One event of any kind. */
    method Handle(e: Event)
      modifies this
      ensures Model() == Happened(cfg, old(Model()), e)
    {
      match e {
        case Request(turn) => Receive(turn);
        case Message(target, valid, value) => Telemeter(target, valid, value);
        case GoalAnswer(raised, accepted, io) => OnArmGoal(raised, accepted, io);
        case GoalResult(result, io) => OnArmResult(result, io);
        case AbortTimer(io) => if failed { PublishZero(io); }
      }
    }
  }

  /** Handling any events, one after the other, is a run of the node. */
  method RunNode(cfg: Config, events: seq<Event>) returns (node: Node, ghost run: S.Run)
    requires R.Proper(cfg) && forall i :: 0 <= i < |events| && events[i].Request? ==> R.EngineRejects(events[i].turn)
    ensures node.cfg == cfg && run.events == events && S.NodeRun(cfg, run) && node.Model() == run.states[|events|]
  {
    node := new Node(cfg);
    run := S.Run([STARTED], []);
    for i := 0 to |events|
      invariant fresh(node) && node.cfg == cfg && run.events == events[..i]
      invariant S.NodeRun(cfg, run) && node.Model() == run.states[i]
    {
      node.Handle(events[i]);
      RunExtends(cfg, run, events[i]);
      run := S.Run(run.states + [node.Model()], run.events + [events[i]]);
    }
  }

  lemma RunExtends(cfg: Config, r: S.Run, e: Event)
    requires S.NodeRun(cfg, r) && (e.Request? ==> R.EngineRejects(e.turn))
    ensures S.NodeRun(cfg, S.Run(r.states + [Happened(cfg, r.states[|r.events|], e)], r.events + [e]))
  {
    Extends(cfg, r, e, Happened(cfg, r.states[|r.events|], e));
  }

  lemma Extends(cfg: Config, r: S.Run, e: Event, after: State)
    requires S.NodeRun(cfg, r) && (e.Request? ==> R.EngineRejects(e.turn))
    requires after == Happened(cfg, r.states[|r.events|], e)
    ensures S.NodeRun(cfg, S.Run(r.states + [after], r.events + [e]))
  {
    var next := S.Run(r.states + [after], r.events + [e]);
    forall i | 0 <= i < |next.events|
      ensures S.StepAt(cfg, next, i) && S.EngineAt(next, i)
    {
      if i < |r.events| { StepStays(cfg, r, next, i); }
    }
  }

  lemma StepStays(cfg: Config, r: S.Run, next: S.Run, i: nat)
    requires r.Shaped() && next.Shaped() && r.states <= next.states && r.events <= next.events && i < |r.events|
    requires S.NodeRun(cfg, r)
    ensures S.StepAt(cfg, next, i) && S.EngineAt(next, i)
  {
    assert S.StepAt(cfg, r, i) && S.EngineAt(r, i);
  }
}
