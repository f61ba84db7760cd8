/** The gate node over whole runs: every permit that can act comes from one timely
    request, ends in time, and a lease is proper unless it is an orphan. */
module GateSafety {
  import opened Bytes
  import opened GateNode
  import opened GateSteps
  import opened GateRuns

  // ---- runs ----

  /** states[i] is what event i meets. */
  datatype Run = Run(states: seq<State>, events: seq<Event>)
  {
    ghost predicate Shaped() { |states| == |events| + 1 }
  }

  ghost predicate StepAt(cfg: Config, r: Run, i: nat)
    requires r.Shaped() && i < |r.events|
  {
    r.states[i + 1] == Happened(cfg, r.states[i], r.events[i])
  }

  ghost predicate EngineAt(r: Run, i: nat)
    requires i < |r.events|
  {
    r.events[i].Request? ==> EngineRejects(r.events[i].turn)
  }

  /** A run from the start, with an engine that rejects as it must. */
  ghost predicate NodeRun(cfg: Config, r: Run) {
    Proper(cfg) && r.Shaped() && r.states[0] == STARTED
    && (forall i :: 0 <= i < |r.events| ==> StepAt(cfg, r, i)) && (forall i :: 0 <= i < |r.events| ==> EngineAt(r, i))
  }

  function LogAt(r: Run, n: nat): seq<Entry>
    requires n < |r.states|
  {
    r.states[n].book.log
  }

  // ---- what the events determine ----

  /** What the accepted-world clock saw in the first n events: the answers of the
      timely requests, in order, until the node failed. */
  function SeenBy(cfg: Config, r: Run, n: nat): seq<Observation>
    requires n <= |r.events| < |r.states|
  {
    if n == 0 then [] else
    SeenBy(cfg, r, n - 1)
    + if r.events[n - 1].Request? && !r.states[n - 1].failed then Sees(cfg, r.events[n - 1].turn) else []
  }

  /** The arm's latest valid message in the first n events. */
  function LastArm(events: seq<Event>, n: nat): Telemetry
    requires n <= |events|
  {
    if n == 0 then STARTED.signer.telemetry else
    var e := events[n - 1];
    if e.Message? && e.valid && e.target.ArmTarget? then e.value else LastArm(events, n - 1)
  }

  // ---- one event ----

  function MayAdd(cfg: Config, st: State, e: Event): Allowed {
    if e.Request? && !st.failed then May(cfg, st, e.turn) else OnlyStops
  }

  /** What one event may change: requests add permits that stem from them, callbacks
      only stops; only timely requests are observed, and only messages are learnt. */
  ghost predicate Happens(cfg: Config, st: State, e: Event, after: State) {
    Inv(cfg, after) && Grows(st.book.log, after.book.log, MayAdd(cfg, st, e))
    && after.book.seen == st.book.seen + (if e.Request? && !st.failed then Sees(cfg, e.turn) else [])
    && after.signer.telemetry == (if e.Message? && e.valid && e.target.ArmTarget? then e.value else st.signer.telemetry)
    && after.signer.challenges == st.signer.challenges + (if e.Message? && e.valid then {e.target} else {})
  }

  lemma {:induction false} EventGoes(cfg: Config, st: State, e: Event)
    requires Proper(cfg) && Inv(cfg, st) && (e.Request? ==> EngineRejects(e.turn))
    ensures Happens(cfg, st, e, Happened(cfg, st, e))
  {
    assert st.book.seen + [] == st.book.seen;
    match e {
      case Request(turn) => if !st.failed { ReceiveGoes(cfg, st, turn); }
      case Message(target, valid, value) => MessageGoes(cfg, st, target, valid, value);
      case GoalAnswer(raised, accepted, io) => GoalAnswerGoes(cfg, st, raised, accepted, io);
      case GoalResult(result, io) => GoalResultGoes(cfg, st, result, io);
      case AbortTimer(io) => if st.failed { AbortTickGoes(cfg, st, io); }
    }
  }

  lemma {:induction false} StepGoes(cfg: Config, r: Run, i: nat)
    requires NodeRun(cfg, r) && i < |r.events| && Inv(cfg, r.states[i])
    ensures Happens(cfg, r.states[i], r.events[i], r.states[i + 1])
  {
    assert StepAt(cfg, r, i) && EngineAt(r, i);
    EventGoes(cfg, r.states[i], r.events[i]);
  }

  // ---- every run ----

  /** In every state of every run: the invariant, exactly the observations of the
      timely requests so far, and the arm's latest message. */
  lemma {:induction false} RunGoes(cfg: Config, r: Run, n: nat)
    requires NodeRun(cfg, r) && n <= |r.events|
    ensures Inv(cfg, r.states[n]) && r.states[n].book.seen == SeenBy(cfg, r, n)
    ensures r.states[n].signer.telemetry == LastArm(r.events, n)
  {
    if n > 0 {
      RunGoes(cfg, r, n - 1);
      StepGoes(cfg, r, n - 1);
    }
  }

  lemma {:induction false} LogGrows(cfg: Config, r: Run, i: nat, n: nat)
    requires NodeRun(cfg, r) && i <= n <= |r.events|
    ensures LogAt(r, i) <= LogAt(r, n) && SeenBy(cfg, r, i) <= SeenBy(cfg, r, n)
    decreases n - i
  {
    if i < n {
      LogGrows(cfg, r, i, n - 1);
      LogGrowsOnce(cfg, r, n - 1);
    }
  }

  lemma {:induction false} LogGrowsOnce(cfg: Config, r: Run, i: nat)
    requires NodeRun(cfg, r) && i < |r.events|
    ensures LogAt(r, i) <= LogAt(r, i + 1) && SeenBy(cfg, r, i) <= SeenBy(cfg, r, i + 1)
  {
    RunGoes(cfg, r, i);
    StepGoes(cfg, r, i);
    GrowsMeans(LogAt(r, i), LogAt(r, i + 1), MayAdd(cfg, r.states[i], r.events[i]));
  }

  /** Permit j was signed during event i. */
  ghost predicate SignedIn(r: Run, j: nat, i: nat) {
    r.Shaped() && i < |r.events| && |LogAt(r, i)| <= j < |LogAt(r, i + 1)|
  }

  lemma {:induction false} WhenSigned(cfg: Config, r: Run, n: nat, j: nat) returns (i: nat)
    requires NodeRun(cfg, r) && n <= |r.events| && j < |LogAt(r, n)|
    ensures i < n && SignedIn(r, j, i)
  {
    if j < |LogAt(r, n - 1)| { i := WhenSigned(cfg, r, n - 1, j); } else { i := n - 1; }
  }

  /** The permit stems from the timely request of event i: its clocks, the reading
      before that signature, its active expiry, the world as accepted up to and including it, and the arm message
      before it, whose number it names and, for a lease, whose digest it carries. */
  ghost predicate ComesFrom(cfg: Config, r: Run, i: nat, e: Entry)
    requires r.Shaped() && i < |r.events|
  {
    r.events[i].Request? && TimelyTurn(cfg, r.events[i].turn) && !r.states[i].failed
    && Stems(e, OriginOf(cfg, r.events[i].turn, |SeenBy(cfg, r, i + 1)|, LastArm(r.events, i)))
    && e.world == WorldAfter(SeenBy(cfg, r, i + 1))
  }

  /** Every permit that can act was signed during one timely request of a running
      node, and comes from it. */
  lemma {:induction false} EveryPermitHasItsRequest(cfg: Config, r: Run, n: nat, j: nat) returns (i: nat)
    requires NodeRun(cfg, r) && n <= |r.events| && j < |LogAt(r, n)| && !LogAt(r, n)[j].kind.Stop?
    ensures i < n && SignedIn(r, j, i) && ComesFrom(cfg, r, i, LogAt(r, n)[j])
  {
    i := WhenSigned(cfg, r, n, j);
    LogGrows(cfg, r, i + 1, n);
    SignedComesFrom(cfg, r, i, j);
  }

  lemma {:induction false} SignedComesFrom(cfg: Config, r: Run, i: nat, j: nat)
    requires NodeRun(cfg, r) && SignedIn(r, j, i) && !LogAt(r, i + 1)[j].kind.Stop?
    ensures ComesFrom(cfg, r, i, LogAt(r, i + 1)[j])
  {
    RunGoes(cfg, r, i);
    RunGoes(cfg, r, i + 1);
    StepGoes(cfg, r, i);
    GrowsMeans(LogAt(r, i), LogAt(r, i + 1), MayAdd(cfg, r.states[i], r.events[i]));
    var e, seen := LogAt(r, i + 1)[j], SeenBy(cfg, r, i + 1);
    assert WorldRecorded(LogAt(r, i + 1), j, seen);
    assert seen[..|seen|] == seen;
  }

  // ---- ends ----

  ghost predicate WorldBounds(e: Entry, anchor: Option<World>, maxAge: int) {
    anchor.Some? && e.wallEnd <= anchor.value.wall + maxAge && e.simEnd <= anchor.value.stamp + maxAge
  }

  /** How long a permit may last, given the request it comes from: at most 200 ms,
      not past the age of the newest accepted world on either clock, not past the
      active expiry, and signed less than 50 ms after it starts with more than 50 ms
      left, by the request's own reading of both clocks before that signature. */
  ghost predicate EndsInTime(cfg: Config, turn: Turn, anchor: Option<World>, e: Entry) {
    turn.answer.Reply?
    && e.wallStart == turn.startWall && e.simStart == Max(0, Ns(turn.startMs) - cfg.backdate)
    && e.wallEnd - e.wallStart <= MAX_LEASE_NS && e.simEnd - e.simStart <= MAX_LEASE_NS
    && WorldBounds(e, anchor, Ns(cfg.maxAgeMs))
    && (turn.answer.step.status.activeExpiresMs.Some? ==> e.simEnd <= Ns(turn.answer.step.status.activeExpiresMs.value))
    && var at := LookedAt(TermsOf(cfg, turn), e.target, e.kind);
       e.wallEnd - at.wall > RESERVE_NS && e.simEnd - at.sim > RESERVE_NS
       && 0 <= at.wall - e.wallStart < RESERVE_NS && 0 <= at.sim - e.simStart < RESERVE_NS
  }

  lemma {:induction false} EveryPermitEndsInTime(cfg: Config, r: Run, n: nat, j: nat) returns (i: nat)
    requires NodeRun(cfg, r) && n <= |r.events| && j < |LogAt(r, n)| && !LogAt(r, n)[j].kind.Stop?
    ensures i < n && SignedIn(r, j, i) && r.events[i].Request?
    ensures EndsInTime(cfg, r.events[i].turn, WorldAfter(SeenBy(cfg, r, i + 1)), LogAt(r, n)[j])
  {
    i := EveryPermitHasItsRequest(cfg, r, n, j);
    RunGoes(cfg, r, n);
    assert BoundedAt(LogAt(r, n), j, Ns(cfg.maxAgeMs));
  }

  /** Nothing newer than what `seen` led to is in `all`. */
  ghost predicate NothingNewer(seen: seq<Observation>, all: seq<Observation>) {
    WorldAfter(seen).Some?
    && forall k :: |seen| <= k < |all| && Accepts(all[k]) ==> Ns(all[k].stampMs.value) <= WorldAfter(seen).value.stamp
  }

  /** On a world frozen since event m, no later permit ends after its age. */
  lemma {:induction false} FrozenWorldEndsPermits(cfg: Config, r: Run, m: nat, n: nat, j: nat)
    requires NodeRun(cfg, r) && m <= n <= |r.events| && NothingNewer(SeenBy(cfg, r, m), SeenBy(cfg, r, n))
    requires |LogAt(r, m)| <= j < |LogAt(r, n)| && !LogAt(r, n)[j].kind.Stop?
    ensures WorldBounds(LogAt(r, n)[j], WorldAfter(SeenBy(cfg, r, m)), Ns(cfg.maxAgeMs))
  {
    var i, anchor := PermitWithinWorld(cfg, r, m, n, j);
    FrozenAnchor(cfg, r, m, i, n);
  }

  /** A permit signed after event m ends with the world of some later event. */
  lemma {:induction false} PermitWithinWorld(cfg: Config, r: Run, m: nat, n: nat, j: nat)
    returns (i: nat, anchor: Option<World>)
    requires NodeRun(cfg, r) && m <= n <= |r.events| && |LogAt(r, m)| <= j < |LogAt(r, n)| && !LogAt(r, n)[j].kind.Stop?
    ensures m < i <= n && anchor == WorldAfter(SeenBy(cfg, r, i))
            && WorldBounds(LogAt(r, n)[j], anchor, Ns(cfg.maxAgeMs))
  {
    i := EveryPermitEndsInTime(cfg, r, n, j);
    SignedLater(cfg, r, m, j, i);
    i := i + 1;
    anchor := WorldAfter(SeenBy(cfg, r, i));
  }

  lemma {:induction false} FrozenAnchor(cfg: Config, r: Run, m: nat, i: nat, n: nat)
    requires NodeRun(cfg, r) && m <= i <= n <= |r.events| && NothingNewer(SeenBy(cfg, r, m), SeenBy(cfg, r, n))
    ensures WorldAfter(SeenBy(cfg, r, i)) == WorldAfter(SeenBy(cfg, r, m))
  {
    LogGrows(cfg, r, m, i);
    LogGrows(cfg, r, i, n);
    FrozenTail(SeenBy(cfg, r, m), SeenBy(cfg, r, i), SeenBy(cfg, r, n));
  }

  lemma {:induction false} SignedLater(cfg: Config, r: Run, m: nat, j: nat, i: nat)
    requires NodeRun(cfg, r) && m <= |r.events| && |LogAt(r, m)| <= j && SignedIn(r, j, i)
    ensures m <= i
  {
    if i + 1 <= m { LogGrows(cfg, r, i + 1, m); }
  }

  lemma {:induction false} FrozenTail(seen: seq<Observation>, later: seq<Observation>, all: seq<Observation>)
    requires seen <= later <= all && NothingNewer(seen, all)
    ensures WorldAfter(later) == WorldAfter(seen)
  {
    var more := later[|seen|..];
    assert later == seen + more;
    assert forall i :: 0 <= i < |more| ==> more[i] == all[|seen| + i];
    FrozenWorldKeepsAnchor(seen, more);
  }

  // ---- leases ----

  predicate IsLease(e: Entry) { e.target.ArmTarget? && e.kind.Lease? }

  /** The one way to an improper lease, in terms of the run before it: no arm permit
      was ever signed, and the arm's latest message reports a digest that is not
      idle under number zero. */
  ghost predicate OrphanAt(r: Run, n: nat, j: nat, i: nat)
    requires n < |r.states| && j < |LogAt(r, n)| && i <= |r.events|
  {
    NoArmDeed(LogAt(r, n)[..j]) && LastArm(r.events, i).admitted != Idle && LastArm(r.events, i).sequence == 0
  }

  /** Every lease carries the digest and the number of the arm's latest message, and
      it is proper exactly when it is not an orphan. */
  lemma {:induction false} LeaseIsProperUnlessOrphan(cfg: Config, r: Run, n: nat, j: nat) returns (i: nat)
    requires NodeRun(cfg, r) && n <= |r.events| && j < |LogAt(r, n)| && IsLease(LogAt(r, n)[j])
    ensures i < n && SignedIn(r, j, i) && ComesFrom(cfg, r, i, LogAt(r, n)[j])
    ensures LogAt(r, n)[j].digest == LastArm(r.events, i).admitted
            && LogAt(r, n)[j].named == LastArm(r.events, i).sequence
    ensures ProperLease(LogAt(r, n), j) <==> !OrphanAt(r, n, j, i)
  {
    i := EveryPermitHasItsRequest(cfg, r, n, j);
    RunGoes(cfg, r, n);
    assert LeaseOk(LogAt(r, n), j);
  }

  /** The controller reports number zero only with the idle digest. */
  ghost predicate ZeroIsIdle(events: seq<Event>) {
    forall i :: 0 <= i < |events| && events[i].Message? && events[i].target.ArmTarget?
                && events[i].value.sequence == 0 ==>
      events[i].value.admitted == Idle
  }

  /** Such a controller gets only proper leases: each is of the governing goal
      permit, the only one of that number, or idle without a number. */
  lemma {:induction false} HonestControllerGetsProperLeases(cfg: Config, r: Run, n: nat, j: nat) returns (k: nat)
    requires NodeRun(cfg, r) && n <= |r.events| && j < |LogAt(r, n)| && IsLease(LogAt(r, n)[j]) && ZeroIsIdle(r.events)
    ensures var log := LogAt(r, n);
            ProperLease(log, j)
            && (log[j].named != 0 ==>
                  (Governs(log, k, j) && log[k].digest == log[j].digest && log[k].seq_ == log[j].named
                   && forall l :: 0 <= l < |log| && log[l].target.ArmTarget? && log[l].seq_ == log[j].named ==> l == k))
            && (log[j].named == 0 ==> log[j].digest == Idle)
  {
    var i := LeaseIsProperUnlessOrphan(cfg, r, n, j);
    LastZeroIsIdle(r.events, i);
    RunGoes(cfg, r, n);
    k := ProperLeaseNamesItsGoal(LogAt(r, n), r.states[n].signer.seqBase, r.states[n].signer.seqArm, j);
  }

  lemma {:induction false} LastZeroIsIdle(events: seq<Event>, n: nat)
    requires n <= |events| && ZeroIsIdle(events)
    ensures LastArm(events, n).sequence == 0 ==> LastArm(events, n).admitted == Idle
  {
    if n > 0 { LastZeroIsIdle(events, n - 1); }
  }
}
