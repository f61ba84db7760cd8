/** What every run of the gate node keeps: bounded permits, each from its own
    request, and leases that are proper exactly when they are not orphans. */
module GateRuns {
  import opened Bytes
  import opened GateNode
  import opened GateSteps

  // ---- the invariant ----

  /** What the node signed, and the observations and numbers behind it, in order. */
  ghost predicate InOrder(log: seq<Entry>, seen: seq<Observation>, world: Option<World>, armKnown: bool,
                          seqBase: int, seqArm: int, maxAge: int) {
    && AllBounded(log, maxAge) && LeasesOk(log)
    && (!NoArmDeed(log) ==> armKnown)
    && world == WorldAfter(seen) && (world.Some? ==> world.value.stamp >= 0)
    && WorldsRecorded(log, seen) && Numbered(log, seqBase, seqArm)
  }

  ghost predicate Recorded(cfg: Config, st: State) {
    InOrder(st.book.log, st.book.seen, st.world, ArmTarget in st.signer.challenges, st.signer.seqBase, st.signer.seqArm,
            Ns(cfg.maxAgeMs))
  }

  ghost predicate Own(st: State) { Agrees(st.book.log, st.signer.owner.active, st.signer.owner.goal) }

  /** The books are in order, and a node that still runs holds itself to them. */
  ghost predicate Inv(cfg: Config, st: State) { Recorded(cfg, st) && (st.failed || Own(st)) }

  predicate Proper(cfg: Config) { 0 <= cfg.backdate < RESERVE_NS }

  /** The deadlines in hand respect the answer in hand. */
  ghost predicate Fresh(cfg: Config, st: State) {
    st.hand.remaining <= MAX_LEASE_NS && st.world.Some? && st.hand.sim >= 0
    && st.hand.wall + st.hand.remaining <= st.world.value.wall + Ns(cfg.maxAgeMs)
    && st.hand.sim + st.hand.remaining <= st.world.value.stamp + Ns(cfg.maxAgeMs)
    && (st.book.expiry.Some? ==> st.hand.sim + st.hand.remaining <= Ns(st.book.expiry.value))
  }

  /** The request in hand, as its permits take from it. */
  function Source(cfg: Config, st: State, terms: Terms): Origin {
    Origin(Max(0, st.hand.sim - cfg.backdate), st.hand.wall, st.book.expiry, |st.book.seen|, st.signer.telemetry, terms)
  }

  /** What signing and publishing never touch. */
  predicate SameWorld(st: State, after: State) {
    after.signer.challenges == st.signer.challenges && after.signer.telemetry == st.signer.telemetry
    && after.world == st.world
    && after.book.seen == st.book.seen && after.book.expiry == st.book.expiry
    && after.hand == st.hand.(reset := after.hand.reset, stop := after.hand.stop) && after.failed == st.failed
  }

  /** Signing went on in order, with nothing but what is allowed. */
  ghost predicate Goes(cfg: Config, st: State, after: State, allowed: Allowed) {
    SameWorld(st, after) && Recorded(cfg, after) && Grows(st.book.log, after.book.log, allowed)
  }

  lemma GoesOn(cfg: Config, a: State, b: State, c: State, allowed: Allowed)
    requires Goes(cfg, a, b, allowed) && Goes(cfg, b, c, allowed)
    ensures Goes(cfg, a, c, allowed)
  {
    GrowsOn(a.book.log, b.book.log, c.book.log, allowed);
  }

  lemma GoesQuietly(cfg: Config, a: State, b: State, allowed: Allowed)
    requires Goes(cfg, a, b, OnlyStops)
    ensures Goes(cfg, a, b, allowed)
  {
    GrowsQuietly(a.book.log, b.book.log, allowed);
  }

  // ---- signing ----

  lemma FiledGoes(cfg: Config, st: State, e: Entry, allowed: Allowed)
    requires Recorded(cfg, st) && Bounded(e, Ns(cfg.maxAgeMs)) && Allows(allowed, e)
    requires e.seen == |st.book.seen| && e.world == st.world && e.target in st.signer.challenges
    requires e.seq_ == 1 + (if e.target.Base? then st.signer.seqBase else st.signer.seqArm)
    requires e.target.ArmTarget? && e.kind.Lease? ==> LeaseFits(st.book.log, e.digest, e.named)
    ensures Goes(cfg, st, Filed(st, e), allowed)
    ensures !ArmDeed(e) ==> SameOwner(st.book.log, Filed(st, e).book.log)
  {
    AppendKeepsBounds(st.book.log, Ns(cfg.maxAgeMs), e);
    AppendKeepsLeases(st.book.log, e);
    OwnerAfter(st.book.log, e);
    SignKeepsWorlds(st.book.log, st.book.seen, e);
    SignKeepsNumbers(st.book.log, st.signer.seqBase, st.signer.seqArm, e);
    GrowsByOne(st.book.log, e, allowed);
  }

  /** The permit of a timely signature, in the state it is filed in. */
  function Timely(cfg: Config, st: State, target: Target, kind: Kind, digest: Digest, r: Reading): Entry {
    Draft(cfg, st, target, kind, digest, st.hand.sim, st.hand.remaining, st.hand.wall, r)
  }

  lemma TimelyIsBounded(cfg: Config, st: State, target: Target, kind: Kind, digest: Digest, r: Reading)
    requires Proper(cfg) && Fresh(cfg, st) && OnTime(cfg, st.hand, r)
    ensures Bounded(Timely(cfg, st, target, kind, digest, r), Ns(cfg.maxAgeMs))
  {
  }

  /** `_permit` signs exactly on time with a challenge, keeps the request's own
      clocks, and stays within every bound. */
  lemma PermitGoes(cfg: Config, st: State, terms: Terms, target: Target, kind: Kind, digest: Digest, r: Reading)
    requires Proper(cfg) && Recorded(cfg, st) && Fresh(cfg, st) && !kind.Stop?
    requires r == LookedAt(terms, target, kind) && (target.ArmTarget? && (kind.Lease? || kind.Reset?) ==> terms.renews)
    requires target.ArmTarget? && kind.Lease? ==>
               digest == st.signer.telemetry.admitted && LeaseFits(st.book.log, digest, st.signer.telemetry.sequence)
    ensures var (after, o) := Permitted(cfg, st, target, kind, digest, r);
            Goes(cfg, st, after, Of(Source(cfg, st, terms)))
            && (o == Expired <==> !OnTime(cfg, st.hand, r))
            && (o == Done <==> OnTime(cfg, st.hand, r) && target in st.signer.challenges)
            && after == (if o == Done then Filed(st, Timely(cfg, st, target, kind, digest, r)) else st)
  {
    if OnTime(cfg, st.hand, r) && target in st.signer.challenges {
      TimelyIsBounded(cfg, st, target, kind, digest, r);
      FiledGoes(cfg, st, Timely(cfg, st, target, kind, digest, r), Of(Source(cfg, st, terms)));
    }
  }

  lemma StopGoes(cfg: Config, st: State, target: Target, digest: Digest, r: Reading)
    requires Recorded(cfg, st) && target in st.signer.challenges
    ensures var e := Draft(cfg, st, target, Stop, digest, r.sim, MAX_LEASE_NS, r.wall, r);
            Stopped(cfg, st, target, digest, r) == Filed(st, e) && Goes(cfg, st, Filed(st, e), OnlyStops)
            && (target.Base? ==> SameOwner(st.book.log, Filed(st, e).book.log))
  {
    FiledGoes(cfg, st, Draft(cfg, st, target, Stop, digest, r.sim, MAX_LEASE_NS, r.wall, r), OnlyStops);
  }

  // ---- publishing ----

  predicate Quiet(hand: Hand, moving: bool) { !moving && hand.stop && !hand.reset }

  /** At most one permit, for the base; only a stop when the command is zero and
      the node is stopping; the arm's books stay. */
  lemma CommandGoes(cfg: Config, st: State, terms: Terms, moving: bool, io: Io)
    requires Proper(cfg) && Recorded(cfg, st)
             && ((Fresh(cfg, st) && io.command == terms.command) || Quiet(st.hand, moving))
    ensures var (after, o) := CommandSent(cfg, st, moving, io);
            Goes(cfg, st, after, Of(Source(cfg, st, terms)))
            && (Quiet(st.hand, moving) ==> o == Done && Goes(cfg, st, after, OnlyStops))
            && SameOwner(st.book.log, after.book.log) && after.signer.owner == st.signer.owner
            && after.action == st.action
            && after.hand == st.hand && |after.book.log| <= |st.book.log| + 1
            && (|after.book.log| > |st.book.log| ==> after.book.log[|st.book.log|].target.Base?)
  {
    if Base in st.signer.challenges {
      if Quiet(st.hand, moving) {
        StopGoes(cfg, st, Base, Sha(io.content), io.command);
        GoesQuietly(cfg, st, Stopped(cfg, st, Base, Sha(io.content), io.command), Of(Source(cfg, st, terms)));
      } else {
        var kind := if st.hand.reset then Reset else Command;
        PermitGoes(cfg, st, terms, Base, kind, Sha(io.content), io.command);
        var e := Timely(cfg, st, Base, kind, Sha(io.content), io.command);
        OwnerAfter(st.book.log, e);
      }
    }
  }

  /** With a challenge a stop is signed and the owner's goal is gone; without one
      nothing is signed and the goal stays. */
  lemma CancelGoes(cfg: Config, st: State, r: Reading)
    requires Recorded(cfg, st)
    ensures var after := Cancelled(cfg, st, r);
            Goes(cfg, st, after, OnlyStops)
            && if ArmTarget in st.signer.challenges
               then after.signer.owner == Holder(Idle, 0) && Own(after)
                    && Signs(st.book.log, after.book.log, Stop, Idle, after.signer.seqArm, st.signer.telemetry.sequence)
               else after.book == st.book && after.signer == st.signer
  {
    if ArmTarget in st.signer.challenges {
      StopGoes(cfg, st, ArmTarget, Idle, r);
      var after := Cancelled(cfg, st, r);
      SignedAgrees(st.book.log, after.book.log, Stop, Idle, after.signer.seqArm, st.signer.telemetry.sequence, Idle, 0);
    }
  }

  /** Without an arm challenge no arm permit exists and the goal number is 0. */
  ghost predicate ArmUnknown(st: State) {
    ArmTarget !in st.signer.challenges ==> NoArmDeed(st.book.log) && st.signer.owner.goal == 0
  }

  lemma OwnUnknown(cfg: Config, st: State)
    requires Recorded(cfg, st) && Own(st)
    ensures ArmUnknown(st)
  {
    if ArmTarget !in st.signer.challenges { NoDeedNoOwner(st.book.log); }
  }

  lemma UnknownOwn(st: State)
    requires ArmUnknown(st) && ArmTarget !in st.signer.challenges
    ensures Own(st)
  {
  }

  /** A goal counts as sent exactly when its permit was signed, and then it is the
      owner's goal; otherwise the log is as it was. */
  ghost predicate GoalFits(cfg: Config, st: State, terms: Terms, content: int, after: State, o: Outcome) {
    Goes(cfg, st, after, Of(Source(cfg, st, terms))) && ArmUnknown(after) && after.hand == st.hand
    && if o == Done
       then Own(after) && after.signer.owner == Holder(Sha(content), after.signer.seqArm)
            && Signs(st.book.log, after.book.log, Goal, Sha(content), after.signer.seqArm, st.signer.telemetry.sequence)
       else after.book == st.book && after.signer.owner.goal == st.signer.owner.goal
  }

  lemma ExecuteGoes(cfg: Config, st: State, terms: Terms, content: int, io: Io)
    requires Proper(cfg) && Recorded(cfg, st) && Fresh(cfg, st) && Own(st) && io.goal == terms.goal
    ensures var (after, o) := Executed(cfg, st, content, io); GoalFits(cfg, st, terms, content, after, o)
  {
    OwnUnknown(cfg, st);
    if !(st.action.future || st.action.goal || !io.serverReady) {
      var named := Owned(st, Sha(content), st.signer.owner.goal);
      NamingGoes(cfg, st, terms, content);
      PermitGoes(cfg, named, terms, ArmTarget, Goal, Sha(content), io.goal);
      var (filed, o) := Permitted(cfg, named, ArmTarget, Goal, Sha(content), io.goal);
      if o == Done { GoalIsFiled(cfg, st, terms, content, Timely(cfg, named, ArmTarget, Goal, Sha(content), io.goal)); }
    }
  }

  /** Naming the goal alone signs nothing. */
  lemma NamingGoes(cfg: Config, st: State, terms: Terms, content: int)
    requires Recorded(cfg, st) && ArmUnknown(st)
    ensures var named := Owned(st, Sha(content), st.signer.owner.goal);
            GoalFits(cfg, st, terms, content, named, Expired) && Source(cfg, named, terms) == Source(cfg, st, terms)
            && Recorded(cfg, named) && (Fresh(cfg, st) ==> Fresh(cfg, named))
  {
  }

  lemma GoalIsFiled(cfg: Config, st: State, terms: Terms, content: int, e: Entry)
    requires Recorded(cfg, st) && e.target.ArmTarget? && e.kind.Goal? && e.digest == Sha(content)
    requires e.seq_ == st.signer.seqArm + 1 && e.named == st.signer.telemetry.sequence
    requires var named := Owned(st, Sha(content), st.signer.owner.goal);
             Goes(cfg, named, Filed(named, e), Of(Source(cfg, st, terms)))
    ensures var filed := Filed(Owned(st, Sha(content), st.signer.owner.goal), e);
            GoalFits(cfg, st, terms, content,
                     Owned(filed, Sha(content), filed.signer.seqArm)
                       .(action := Action(filed.action.goal, true, false)), Done)
  {
    var filed := Filed(Owned(st, Sha(content), st.signer.owner.goal), e);
    assert filed.book.log[..|st.book.log|] == st.book.log;
    GoalIsOwned(cfg, st, terms, content, filed);
  }

  lemma GoalIsOwned(cfg: Config, st: State, terms: Terms, content: int, filed: State)
    requires Recorded(cfg, st) && Goes(cfg, st, filed, Of(Source(cfg, st, terms))) && filed.hand == st.hand
    requires Signs(st.book.log, filed.book.log, Goal, Sha(content), filed.signer.seqArm, st.signer.telemetry.sequence)
    ensures var after := Owned(filed, Sha(content), filed.signer.seqArm)
                           .(action := Action(filed.action.goal, true, false));
            GoalFits(cfg, st, terms, content, after, Done)
  {
    SignedAgrees(st.book.log, filed.book.log, Goal, Sha(content), filed.signer.seqArm, st.signer.telemetry.sequence,
                 Sha(content), filed.signer.seqArm);
    var after := Owned(filed, Sha(content), filed.signer.seqArm).(action := Action(filed.action.goal, true, false));
    OwnUnknown(cfg, after);
  }

  /** What the arm half of a publication keeps. */
  ghost predicate ArmFits(cfg: Config, st: State, terms: Terms, arm: ArmOut, after: State, o: Outcome) {
    Goes(cfg, st, after, Of(Source(cfg, st, terms))) && ArmUnknown(after) && (o == Done ==> Own(after))
    && (arm.NoArm? || arm.EmptyArm? || arm.Cancel? ==> o == Done && Goes(cfg, st, after, OnlyStops))
    && after.hand == st.hand
  }

  lemma ArmGoes(cfg: Config, st: State, terms: Terms, arm: ArmOut, io: Io)
    requires Proper(cfg) && Recorded(cfg, st) && Own(st) && (arm.Execute? ==> Fresh(cfg, st) && io.goal == terms.goal)
    ensures var (after, o) := ArmSent(cfg, st, arm, io); ArmFits(cfg, st, terms, arm, after, o)
  {
    OwnUnknown(cfg, st);
    match arm {
      case NoArm =>
      case EmptyArm =>
      case Cancel =>
        CancelGoes(cfg, st, io.cancel);
        GoesQuietly(cfg, st, Cancelled(cfg, st, io.cancel), Of(Source(cfg, st, terms)));
      case Execute(content) => ExecuteGoes(cfg, st, terms, content, io);
      case InvalidArm =>
    }
  }

  /** What the command half of a publication keeps. */
  ghost predicate BaseFits(cfg: Config, st: State, terms: Terms, quiet: bool, after: State, o: Outcome) {
    Goes(cfg, st, after, Of(Source(cfg, st, terms))) && Own(after) && after.hand == st.hand
    && (quiet ==> o == Done && Goes(cfg, st, after, OnlyStops))
  }

  lemma BaseGoes(cfg: Config, st: State, terms: Terms, step: Step, io: Io, quiet: bool)
    requires Proper(cfg) && Recorded(cfg, st) && Own(st) && ((Fresh(cfg, st) && io.command == terms.command) || quiet)
    requires quiet ==> Quiet(st.hand, step.moving)
    ensures var (after, o) := BaseSent(cfg, st, step, io); BaseFits(cfg, st, terms, quiet, after, o)
  {
    if !Retiring(cfg, st, step, io.retire) {
      CommandGoes(cfg, st, terms, step.moving, io);
      var after := CommandSent(cfg, st, step.moving, io).0;
      SameOwnerAgrees(st.book.log, after.book.log, st.signer.owner.active, st.signer.owner.goal);
    }
  }

  /** What a whole publication keeps. */
  ghost predicate PublishFits(cfg: Config, st: State, terms: Terms, step: Step, after: State, o: Outcome) {
    Goes(cfg, st, after, Of(Source(cfg, st, terms))) && ArmUnknown(after) && (o == Done ==> Own(after))
    && after.hand.reset == ExplicitRearm(step) && after.hand.stop == Stopping(step)
    && (Disarming(step) ==> o == Done && Goes(cfg, st, after, OnlyStops))
  }

  lemma JudgedGoes(cfg: Config, st: State, terms: Terms, step: Step)
    requires Recorded(cfg, st)
    ensures var judged := Judged(st, step);
            Goes(cfg, st, judged, Of(Source(cfg, st, terms))) && Goes(cfg, st, judged, OnlyStops)
            && (Own(st) ==> Own(judged)) && (Fresh(cfg, st) ==> Fresh(cfg, judged))
            && Source(cfg, judged, terms) == Source(cfg, st, terms)
  {
  }

  lemma HalvesFit(cfg: Config, st: State, terms: Terms, step: Step, judged: State, sent: State, o: Outcome,
                  after: State, last: Outcome)
    requires judged == Judged(st, step) && Recorded(cfg, st) && BaseFits(cfg, judged, terms, Disarming(step), sent, o)
    requires if o == Done then ArmFits(cfg, sent, terms, step.arm, after, last) else after == sent && last == o
    ensures PublishFits(cfg, st, terms, step, after, last)
  {
    JudgedGoes(cfg, st, terms, step);
    OwnUnknown(cfg, sent);
    GoesOn(cfg, st, judged, sent, Of(Source(cfg, st, terms)));
    GoesOn(cfg, st, sent, after, Of(Source(cfg, st, terms)));
    if Disarming(step) {
      GoesOn(cfg, st, judged, sent, OnlyStops);
      GoesOn(cfg, st, sent, after, OnlyStops);
    }
  }

  /** `_publish`: everything it signs is of the request in hand; an answer to a
      `reject` is always published and adds only stops. */
  lemma PublishGoes(cfg: Config, st: State, terms: Terms, step: Step, io: Io)
    requires Proper(cfg) && Recorded(cfg, st) && Own(st)
    requires Disarming(step) || (Fresh(cfg, st) && io.command == terms.command && io.goal == terms.goal)
    ensures var (after, o) := Published(cfg, st, step, io); PublishFits(cfg, st, terms, step, after, o)
  {
    var judged := Judged(st, step);
    JudgedGoes(cfg, st, terms, step);
    BaseGoes(cfg, judged, terms, step, io, Disarming(step));
    var (sent, o) := BaseSent(cfg, judged, step, io);
    if o == Done { ArmGoes(cfg, sent, terms, step.arm, io); }
    var (after, last) := if o == Done then ArmSent(cfg, sent, step.arm, io) else (sent, o);
    HalvesFit(cfg, st, terms, step, judged, sent, o, after, last);
  }

  /** Retiring suppresses nothing that could have been signed. */
  lemma RetiringWouldExpire(cfg: Config, st: State, step: Step, r: Reading)
    requires Retiring(cfg, st, step, r)
    ensures !OnTime(cfg, st.hand, r)
  {
  }

  // ---- the heartbeat ----

  /** A lease is signed exactly when armed telemetry names the owner's goal and
      enough time is left; it carries exactly what telemetry names. */
  lemma BeatGoes(cfg: Config, st: State, terms: Terms, r: Reading)
    requires Proper(cfg) && Recorded(cfg, st) && Fresh(cfg, st) && Own(st) && terms.renews && r == terms.beat
    ensures var (after, o) := Beaten(cfg, st, r);
            Goes(cfg, st, after, Of(Source(cfg, st, terms))) && Own(after)
            && o == (if !Renews(st) || OnTime(cfg, st.hand, r) then Done else Expired)
            && if Renews(st) && o == Done
               then Signs(st.book.log, after.book.log, if st.hand.reset then Reset else Lease,
                          if st.hand.reset then Idle else st.signer.telemetry.admitted, after.signer.seqArm,
                          st.signer.telemetry.sequence)
               else after == st
  {
    if Renews(st) {
      var kind := if st.hand.reset then Reset else Lease;
      var digest := if st.hand.reset then Idle else st.signer.owner.active;
      LeaseChoice(st.book.log, st.signer.owner.active, st.signer.owner.goal);
      PermitGoes(cfg, st, terms, ArmTarget, kind, digest, r);
      var (after, o) := Beaten(cfg, st, r);
      if o == Done {
        var owner := after.signer.owner;
        SignedAgrees(st.book.log, after.book.log, kind, digest, after.signer.seqArm, st.signer.telemetry.sequence,
                     owner.active, owner.goal);
      }
    }
  }

  // ---- one request ----

  lemma ObservingKeeps(cfg: Config, st: State, step: Step)
    requires Recorded(cfg, st)
    ensures Recorded(cfg, Observing(st, step)) && (Own(st) ==> Own(Observing(st, step)))
  {
    ObserveKeepsWorlds(st.book.log, st.book.seen, Observation(step.worldStampMs, st.hand.wall));
  }

  /** The span in hand is the least of 200 ms, the world's age, the accepted world
      and the active expiry. */
  lemma BudgetGoes(cfg: Config, st: State, step: Step, startMs: int)
    requires Recorded(cfg, st) && st.hand.sim == Ns(startMs) && st.book.expiry == step.status.activeExpiresMs
    ensures var (after, o) := Budgeted(cfg, st, step, startMs);
            after == st.(hand := after.hand) && after.hand.sim == st.hand.sim && after.hand.wall == st.hand.wall
            && Recorded(cfg, after) && (o == Done || o == Expired) && (o == Done ==> Fresh(cfg, after))
  {
    var (after, o) := Budgeted(cfg, st, step, startMs);
    if o == Done {
      RemainingFits(st.world, st.hand.sim, st.hand.wall, Ns(cfg.maxAgeMs), after.hand.remaining);
    }
  }

  /** What answering a request may leave before any exception is handled. */
  ghost predicate Leaves(cfg: Config, st: State, after: State, o: Outcome, allowed: Allowed) {
    Recorded(cfg, after) && ArmUnknown(after) && (o == Done ==> Own(after))
    && Grows(st.book.log, after.book.log, allowed)
    && after.signer.challenges == st.signer.challenges && after.signer.telemetry == st.signer.telemetry
    && after.failed == st.failed
  }

  predicate RenewsIn(cfg: Config, turn: Turn)
    requires turn.answer.Reply?
  {
    LeaseRenewable(turn.answer.step, turn.elapsed, cfg.maxAgeMs, cfg.maxResponseMs)
  }

  /** What the clocks and the answer of a request contribute to its permits. */
  function TermsOf(cfg: Config, turn: Turn): Terms
    requires turn.answer.Reply?
  {
    Terms(turn.io.command, turn.io.goal, turn.beat, RenewsIn(cfg, turn))
  }

  lemma DeliverGoes(cfg: Config, st: State, turn: Turn)
    requires Proper(cfg) && Recorded(cfg, st) && Own(st) && Fresh(cfg, st) && turn.answer.Reply?
    ensures var (after, o) := Delivered(cfg, st, turn);
            Leaves(cfg, st, after, o, Of(Source(cfg, st, TermsOf(cfg, turn)))) && after.book.seen == st.book.seen
  {
    var step, terms := turn.answer.step, TermsOf(cfg, turn);
    PublishGoes(cfg, st, terms, step, turn.io);
    var (published, o) := Published(cfg, st, step, turn.io);
    var retiring := Retiring(cfg, Judged(st, step), step, turn.io.retire);
    if o == Done && Beats(cfg, published, turn, retiring) {
      PublishedIsFresh(cfg, st, terms, step, published);
      BeatGoes(cfg, published, terms, turn.beat);
      var (after, last) := Beaten(cfg, published, turn.beat);
      OwnUnknown(cfg, after);
      GoesOn(cfg, st, published, after, Of(Source(cfg, st, terms)));
    }
  }

  lemma PublishedIsFresh(cfg: Config, st: State, terms: Terms, step: Step, after: State)
    requires Fresh(cfg, st) && SameWorld(st, after)
    ensures Fresh(cfg, after) && Source(cfg, after, terms) == Source(cfg, st, terms)
  {
  }

  /** The engine answered, and what it answered may still be acted on. */
  predicate TimelyTurn(cfg: Config, turn: Turn) {
    turn.answer.Reply?
    && FreshActuation(turn.answer.step, turn.elapsed, turn.nowMs, cfg.maxAgeMs, cfg.maxResponseMs) == Done
  }

  function ObservationOf(turn: Turn): Observation
    requires turn.answer.Reply?
  {
    Observation(turn.answer.step.worldStampMs, turn.startWall)
  }

  /** What the permits of a timely request take from it. */
  function OriginOf(cfg: Config, turn: Turn, seen: nat, telemetry: Telemetry): Origin
    requires turn.answer.Reply?
  {
    Origin(Max(0, Ns(turn.startMs) - cfg.backdate), turn.startWall, turn.answer.step.status.activeExpiresMs, seen,
           telemetry, TermsOf(cfg, turn))
  }

  function May(cfg: Config, st: State, turn: Turn): Allowed {
    if TimelyTurn(cfg, turn) then Of(OriginOf(cfg, turn, |st.book.seen| + 1, st.signer.telemetry)) else OnlyStops
  }

  function Sees(cfg: Config, turn: Turn): seq<Observation> {
    if TimelyTurn(cfg, turn) then [ObservationOf(turn)] else []
  }

  lemma ActGoes(cfg: Config, st: State, turn: Turn)
    requires Proper(cfg) && Recorded(cfg, st) && Own(st) && turn.answer.Reply?
    requires st.hand.sim == Ns(turn.startMs) && st.hand.wall == turn.startWall
    ensures var (after, o) := Acted(cfg, st, turn);
            Leaves(cfg, st, after, o, May(cfg, st, turn)) && after.book.seen == st.book.seen + Sees(cfg, turn)
            && (!TimelyTurn(cfg, turn) ==> o != Done)
  {
    OwnUnknown(cfg, st);
    if TimelyTurn(cfg, turn) {
      var (budgeted, o) := Budgeted(cfg, Observing(st, turn.answer.step), turn.answer.step, turn.startMs);
      BudgetOfAnswer(cfg, st, turn, budgeted, o);
      if o == Done { DeliverGoes(cfg, budgeted, turn); }
    } else {
      assert st.book.seen + [] == st.book.seen;
    }
  }

  /** The state in which a timely answer is published. */
  lemma BudgetOfAnswer(cfg: Config, st: State, turn: Turn, after: State, o: Outcome)
    requires Recorded(cfg, st) && Own(st) && turn.answer.Reply? && TimelyTurn(cfg, turn)
    requires st.hand.sim == Ns(turn.startMs) && st.hand.wall == turn.startWall
    requires (after, o) == Budgeted(cfg, Observing(st, turn.answer.step), turn.answer.step, turn.startMs)
    ensures Leaves(cfg, st, after, o, May(cfg, st, turn)) && Own(after)
            && after.book.seen == st.book.seen + Sees(cfg, turn)
    ensures after.book.log == st.book.log && Of(Source(cfg, after, TermsOf(cfg, turn))) == May(cfg, st, turn)
            && (o == Done ==> Fresh(cfg, after))
  {
    var seen := Observing(st, turn.answer.step);
    ObservingKeeps(cfg, st, turn.answer.step);
    BudgetGoes(cfg, seen, turn.answer.step, turn.startMs);
    ObservedAnswer(cfg, st, turn, seen, after);
    OwnUnknown(cfg, after);
  }

  /** What a timely answer taught the node, and what its permits will take from it. */
  lemma ObservedAnswer(cfg: Config, st: State, turn: Turn, seen: State, after: State)
    requires turn.answer.Reply? && TimelyTurn(cfg, turn) && seen == Observing(st, turn.answer.step)
    requires st.hand.sim == Ns(turn.startMs) && st.hand.wall == turn.startWall
    requires after == seen.(hand := after.hand) && after.hand.sim == st.hand.sim && after.hand.wall == st.hand.wall
    ensures after.book.seen == st.book.seen + Sees(cfg, turn) && after.book.log == st.book.log
    ensures Of(Source(cfg, after, TermsOf(cfg, turn))) == May(cfg, st, turn)
  {
  }

  // ---- failure ----

  /** Only stops were signed, and the node is stopping. */
  ghost predicate Quiets(cfg: Config, st: State, after: State) {
    Recorded(cfg, after) && Own(after) && Grows(st.book.log, after.book.log, OnlyStops) && !after.hand.reset
    && after.hand.stop
    && after.signer.challenges == st.signer.challenges && after.signer.telemetry == st.signer.telemetry
    && after.book.seen == st.book.seen && (ArmTarget in st.signer.challenges ==> after.signer.owner == Holder(Idle, 0))
  }

  /** Terms where only stops are signed. */
  const UNUSED: Terms := Terms(Reading(0, 0), Reading(0, 0), Reading(0, 0), false)

  lemma QuietGoes(cfg: Config, st: State, io: Io)
    requires Proper(cfg) && Recorded(cfg, st) && ArmUnknown(st)
    ensures Quiets(cfg, st, Quieted(cfg, st, io)) && Quieted(cfg, st, io).failed == st.failed
  {
    var stopping := st.(hand := st.hand.(reset := false, stop := true));
    CommandGoes(cfg, stopping, UNUSED, false, io);
    var zero := ZeroSent(cfg, st, io);
    CancelGoes(cfg, zero, io.cancel);
    GrowsOn(st.book.log, zero.book.log, Quieted(cfg, st, io).book.log, OnlyStops);
    if ArmTarget !in st.signer.challenges { UnknownOwn(zero); }
  }

  lemma AbortGoes(cfg: Config, st: State, io: Io)
    requires Proper(cfg) && Recorded(cfg, st) && ArmUnknown(st) && !st.failed
    ensures Quiets(cfg, st, Aborted(cfg, st, io)) && Aborted(cfg, st, io).failed
  {
    QuietGoes(cfg, st.(failed := true), io);
  }

  /** Handling an exception adds only stops, and the node is stopping or failed. */
  ghost predicate Settles(cfg: Config, st: State, after: State) {
    Inv(cfg, after) && Grows(st.book.log, after.book.log, OnlyStops) && !after.hand.reset && after.hand.stop
    && after.signer.challenges == st.signer.challenges && after.signer.telemetry == st.signer.telemetry
    && after.book.seen == st.book.seen
  }

  lemma RejectGoes(cfg: Config, st: State, turn: Turn)
    requires Proper(cfg) && Recorded(cfg, st) && Own(st) && !st.failed
    requires turn.rejectAnswer.Reply? ==> Disarming(turn.rejectAnswer.step)
    ensures Settles(cfg, st, RejectSent(cfg, st, turn))
    ensures RejectSent(cfg, st, turn).failed <==> !turn.rejectAnswer.Reply?
  {
    OwnUnknown(cfg, st);
    if turn.rejectAnswer.Reply? {
      PublishGoes(cfg, st, UNUSED, turn.rejectAnswer.step, turn.rejectIo);
    } else {
      AbortGoes(cfg, st, turn.abort);
    }
  }

  lemma RecoverGoes(cfg: Config, st: State, o: Outcome, turn: Turn)
    requires Proper(cfg) && Recorded(cfg, st) && ArmUnknown(st) && !st.failed && o != Done
    ensures Settles(cfg, st, Recovered(cfg, st, o, turn))
    ensures Recovered(cfg, st, o, turn).failed <==>
              o == Broken || !turn.rejectAnswer.Reply? || !Rejecting(turn.rejectAnswer.step)
  {
    if o == Broken {
      AbortGoes(cfg, st, turn.abort);
    } else {
      var quiet := Quieted(cfg, st, turn.zero);
      QuietGoes(cfg, st, turn.zero);
      OwnUnknown(cfg, quiet);
      if turn.rejectAnswer.Reply? && !Rejecting(turn.rejectAnswer.step) {
        AbortGoes(cfg, quiet, turn.abort);
      } else {
        RejectGoes(cfg, quiet, turn);
      }
      GrowsOn(st.book.log, quiet.book.log, Recovered(cfg, st, o, turn).book.log, OnlyStops);
    }
  }

  /** After a malformed proposal the node publishes the engine's answer to its
      `reject` unchecked, so that answer must be zero with no source armed. */
  predicate EngineRejects(turn: Turn) {
    turn.answer.InvalidInput? && turn.rejectAnswer.Reply? ==> Disarming(turn.rejectAnswer.step)
  }

  /** What one request leaves: the invariant; permits that stem from this request
      alone, and only stops if its answer is missing or untimely; and exactly the
      observation of a timely answer. */
  ghost predicate Turned(cfg: Config, st: State, turn: Turn, after: State) {
    Inv(cfg, after) && Grows(st.book.log, after.book.log, May(cfg, st, turn))
    && after.signer.challenges == st.signer.challenges && after.signer.telemetry == st.signer.telemetry
    && after.book.seen == st.book.seen + Sees(cfg, turn)
    && (!TimelyTurn(cfg, turn) ==> !after.hand.reset && after.hand.stop) && (turn.answer.Failure? ==> after.failed)
  }

  lemma ReceiveGoes(cfg: Config, st: State, turn: Turn)
    requires Proper(cfg) && Inv(cfg, st) && !st.failed && EngineRejects(turn)
    ensures Turned(cfg, st, turn, Received(cfg, st, turn))
  {
    ResolveGoes(cfg, Asking(st, turn), turn);
    AskingChangesNothing(cfg, st, turn, Resolved(cfg, Asking(st, turn), turn));
  }

  lemma AskingChangesNothing(cfg: Config, st: State, turn: Turn, after: State)
    requires Turned(cfg, Asking(st, turn), turn, after)
    ensures Turned(cfg, st, turn, after)
  {
  }

  lemma ResolveGoes(cfg: Config, st: State, turn: Turn)
    requires Proper(cfg) && Inv(cfg, st) && !st.failed && EngineRejects(turn)
    requires st.hand.sim == Ns(turn.startMs) && st.hand.wall == turn.startWall
    ensures Turned(cfg, st, turn, Resolved(cfg, st, turn))
  {
    if turn.answer.Reply? { ReplyGoes(cfg, st, turn); } else { UnansweredGoes(cfg, st, turn); }
  }

  /** No answer: a malformed proposal is rejected, anything else ends the node. */
  lemma UnansweredGoes(cfg: Config, st: State, turn: Turn)
    requires Proper(cfg) && Inv(cfg, st) && !st.failed && EngineRejects(turn) && !turn.answer.Reply?
    ensures Turned(cfg, st, turn,
                   if turn.answer.Failure? then Aborted(cfg, st, turn.abort) else RejectSent(cfg, st, turn))
  {
    assert st.book.seen + [] == st.book.seen;
    OwnUnknown(cfg, st);
    if turn.answer.Failure? { AbortGoes(cfg, st, turn.abort); } else { RejectGoes(cfg, st, turn); }
  }

  lemma ReplyGoes(cfg: Config, st: State, turn: Turn)
    requires Proper(cfg) && Inv(cfg, st) && !st.failed && turn.answer.Reply?
    requires st.hand.sim == Ns(turn.startMs) && st.hand.wall == turn.startWall
    ensures var (acted, o) := Acted(cfg, st, turn); Turned(cfg, st, turn, Recovered(cfg, acted, o, turn))
  {
    ActGoes(cfg, st, turn);
    var (acted, o) := Acted(cfg, st, turn);
    if o != Done {
      RecoverGoes(cfg, acted, o, turn);
      var after := Recovered(cfg, acted, o, turn);
      GrowsQuietly(acted.book.log, after.book.log, May(cfg, st, turn));
      GrowsOn(st.book.log, acted.book.log, after.book.log, May(cfg, st, turn));
    }
  }

  // ---- the other events ----

  lemma MessageGoes(cfg: Config, st: State, target: Target, valid: bool, value: Telemetry)
    requires Inv(cfg, st)
    ensures Inv(cfg, Telemetered(st, target, valid, value))
  {
  }

  /** A callback adds only stops and learns nothing. */
  ghost predicate Callback(cfg: Config, st: State, after: State) {
    Inv(cfg, after) && Grows(st.book.log, after.book.log, OnlyStops)
    && after.signer.challenges == st.signer.challenges && after.signer.telemetry == st.signer.telemetry
    && after.book.seen == st.book.seen && (st.failed ==> after.failed)
  }

  lemma AbortIsCallback(cfg: Config, st: State, io: Io)
    requires Proper(cfg) && Inv(cfg, st)
    ensures Callback(cfg, st, Aborted(cfg, st, io))
  {
    if !st.failed {
      OwnUnknown(cfg, st);
      AbortGoes(cfg, st, io);
    }
  }

  lemma GoalAnswerGoes(cfg: Config, st: State, raised: bool, accepted: bool, io: Io)
    requires Proper(cfg) && Inv(cfg, st)
    ensures Callback(cfg, st, GoalAnswered(cfg, st, raised, accepted, io))
  {
    var held := st.(action := st.action.(goal := true, future := false));
    AbortIsCallback(cfg, st, io);
    AbortIsCallback(cfg, held, io);
    CancelGoes(cfg, held, io.cancel);
  }

  lemma GoalResultGoes(cfg: Config, st: State, result: Result, io: Io)
    requires Proper(cfg) && Inv(cfg, st)
    ensures Callback(cfg, st, GoalResulted(cfg, st, result, io))
  {
    AbortIsCallback(cfg, st, io);
  }

  lemma AbortTickGoes(cfg: Config, st: State, io: Io)
    requires Proper(cfg) && Inv(cfg, st) && st.failed
    ensures Callback(cfg, st, ZeroSent(cfg, st, io))
  {
    CommandGoes(cfg, st.(hand := st.hand.(reset := false, stop := true)), UNUSED, false, io);
  }
}
