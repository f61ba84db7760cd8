/** The gate node as permit owner: dual-clock deadlines, and the one arm goal it
    holds itself to, across engine answers, telemetry, expiry and failure. */
module GateNode {
  import opened Bytes

  const MAX_LEASE_NS: int := 200_000_000
  const RESERVE_NS: int := 50_000_000

  /** Milliseconds as nanoseconds. */
  function Ns(ms: int): int { ms * 1_000_000 }

  // ---- data ----

  datatype Target = Base | ArmTarget
  datatype Kind = Command | Reset | Goal | Lease | Stop

  /** A digest: all zeros, or that of some signed content. */
  datatype Digest = Idle | Sha(content: int)

  /** One look at both clocks, in nanoseconds. */
  datatype Reading = Reading(sim: int, wall: int)

  /** The newest accepted world stamp, and the wall start of the request that
      first brought it. */
  datatype World = World(stamp: int, wall: int)

  /** A signed permit, with what the owner knew when it signed. */
  datatype Entry = Entry(target: Target, kind: Kind, digest: Digest, seq_: int, simStart: int, wallStart: int,
                         simEnd: int, wallEnd: int, at: Reading, world: Option<World>, expiry: Option<int>,
                         named: int, seen: nat)

  /** What the arm controller last reported. */
  datatype Telemetry = Telemetry(admitted: Digest, sequence: int, holding: bool, expired: bool)

  datatype Mode = Normal | Caution | OtherMode

  /** The answer's `arm`: null or missing, another empty value, or an order. */
  datatype ArmOut = NoArm | EmptyArm | Cancel | Execute(content: int) | InvalidArm

  /** The answer's `armed`: not given as a list of sources, the empty list, or some. */
  datatype Armed = Unstated | Nobody | Sources

  /** The answer's `active`: missing, null, or a goal. */
  datatype Active = Missing | NoGoal | Active(isArm: bool)

  datatype Status = Status(armed: Armed, mode: Mode, active: Active, activeExpiresMs: Option<int>,
                           worldAgeMs: Option<int>, armCancelling: bool, recorderOk: bool, stateOk: bool)

  /** One engine answer. `linear` and `angular` matter only as zero or not. */
  datatype Step = Step(moving: bool, arm: ArmOut, status: Status, stopAllowed: bool, worldStampMs: Option<int>)

  /** What `reject_expired_actuation` demands of the answer to a `reject`: nothing
      moves, nobody is armed and no goal is active, all of it stated outright. */
  predicate Rejecting(step: Step) {
    !step.moving && (step.arm.NoArm? || step.arm.Cancel?) && step.status.armed.Nobody? && step.status.active.NoGoal?
  }

  /** Nothing moves, no goal is sent and no source is armed. */
  predicate Disarming(step: Step) {
    !step.moving && (step.arm.NoArm? || step.arm.EmptyArm? || step.arm.Cancel?) && !step.status.armed.Sources?
  }

  // ---- pure checks ----

  predicate ExplicitRearm(step: Step) {
    step.stopAllowed && step.status.armed.Sources? && !step.status.active.Active? && step.status.mode.Normal?
    && !step.status.armCancelling
  }

  predicate Stopping(step: Step) { !step.status.armed.Sources? || step.status.mode.OtherMode? }

  predicate LeaseRenewable(step: Step, elapsed: real, maxAgeMs: int, maxResponseMs: int) {
    step.status.mode.Normal? && !step.status.armCancelling && step.status.recorderOk && step.status.stateOk
    && step.status.worldAgeMs.Some? && step.status.worldAgeMs.value >= 0
    && 0.0 <= elapsed < maxResponseMs as real
    && step.status.worldAgeMs.value as real + elapsed < maxAgeMs as real
  }

  datatype Outcome = Done | Expired | Broken

  /** `require_fresh_actuation`. */
  function FreshActuation(step: Step, elapsed: real, nowMs: int, maxAgeMs: int, maxResponseMs: int): Outcome {
    var s := step.status;
    if !step.moving && !step.arm.Execute? then Done
    else if s.activeExpiresMs.None? || s.worldAgeMs.None? then Broken
    else if elapsed < 0.0 || elapsed >= maxResponseMs as real then Broken
    else if nowMs >= s.activeExpiresMs.value || s.worldAgeMs.value as real + elapsed >= maxAgeMs as real then Expired
    else Done
  }

  // ---- the accepted-world clock ----

  /** `AcceptedWorldClock.observe`: only a strictly newer stamp moves the anchor. */
  function Observed(world: Option<World>, stampMs: Option<int>, requestWall: int): Option<World> {
    if stampMs.None? || stampMs.value < 0 then world
    else if world.None? || Ns(stampMs.value) > world.value.stamp then Some(World(Ns(stampMs.value), requestWall))
    else world
  }

  function Remaining(world: Option<World>, sim: int, wall: int, maximum: int): int {
    if world.None? || sim < world.value.stamp || wall < world.value.wall then 0
    else
      var bySim, byWall := maximum - (sim - world.value.stamp), maximum - (wall - world.value.wall);
      var least := if bySim < byWall then bySim else byWall;
      if least < 0 then 0 else least
  }

  /** What remains keeps both clocks inside the world's age. */
  lemma RemainingFits(world: Option<World>, sim: int, wall: int, maximum: int, span: int)
    requires 0 < span <= Remaining(world, sim, wall, maximum)
    ensures world.Some? && world.value.stamp <= sim && wall + span <= world.value.wall + maximum
    ensures sim + span <= world.value.stamp + maximum
  {
  }

  /** An observation: the stamp an answer accepted, and its request's wall start. */
  datatype Observation = Observation(stampMs: Option<int>, wall: int)

  function WorldAfter(seen: seq<Observation>): Option<World> {
    if seen == [] then None else
    Observed(WorldAfter(seen[..|seen| - 1]), seen[|seen| - 1].stampMs, seen[|seen| - 1].wall)
  }

  predicate Accepts(o: Observation) { o.stampMs.Some? && o.stampMs.value >= 0 }

  /** Observation i brought the newest stamp, and no earlier one did. */
  ghost predicate FirstNewest(seen: seq<Observation>, i: nat) {
    i < |seen| && Accepts(seen[i])
    && (forall j :: 0 <= j < i && Accepts(seen[j]) ==> seen[j].stampMs.value < seen[i].stampMs.value)
    && (forall j :: i < j < |seen| && Accepts(seen[j]) ==> seen[j].stampMs.value <= seen[i].stampMs.value)
  }

  /** The anchor is the newest stamp ever accepted, with the wall start of the
      first request that brought it: repeats of a frozen world do not move it. */
  lemma {:induction false} AnchorIsFirstNewest(seen: seq<Observation>) returns (i: nat)
    ensures WorldAfter(seen).None? ==> forall j :: 0 <= j < |seen| ==> !Accepts(seen[j])
    ensures WorldAfter(seen).Some? ==>
              FirstNewest(seen, i) && WorldAfter(seen).value == World(Ns(seen[i].stampMs.value), seen[i].wall)
  {
    i := 0;
    if seen != [] {
      var n := |seen| - 1;
      i := AnchorIsFirstNewest(seen[..n]);
      if WorldAfter(seen[..n]).None?
         || (Accepts(seen[n]) && Ns(seen[n].stampMs.value) > WorldAfter(seen[..n]).value.stamp) {
        i := n;
      }
    }
  }

  // ---- signing ----

  /** The bounds on every permit that can move or arm anything. */
  ghost predicate Bounded(e: Entry, maxAge: int) {
    e.kind.Stop? ||
    (e.wallEnd - e.wallStart <= MAX_LEASE_NS && e.simEnd - e.simStart <= MAX_LEASE_NS
     && e.world.Some? && e.wallEnd <= e.world.value.wall + maxAge && e.simEnd <= e.world.value.stamp + maxAge
     && (e.expiry.Some? ==> e.simEnd <= Ns(e.expiry.value))
     && e.wallEnd - e.at.wall > RESERVE_NS && e.simEnd - e.at.sim > RESERVE_NS
     && 0 <= e.at.wall - e.wallStart < RESERVE_NS && 0 <= e.at.sim - e.simStart < RESERVE_NS)
  }

  predicate ArmDeed(e: Entry) { e.target.ArmTarget? && (e.kind.Goal? || e.kind.Stop? || e.kind.Reset?) }

  /** The owner's arm goal as its own permits define it: that of the most recent
      goal permit, unless a stop or reset was signed since. */
  function Owner(log: seq<Entry>): (Digest, int) {
    if log == [] then (Idle, 0) else
    var e := log[|log| - 1];
    if ArmDeed(e) then if e.kind.Goal? then (e.digest, e.seq_) else (Idle, 0) else Owner(log[..|log| - 1])
  }

  ghost predicate NoArmDeed(log: seq<Entry>) {
    forall i {:trigger ArmDeed(log[i])} :: 0 <= i < |log| ==> !ArmDeed(log[i])
  }

  /** A lease carries the owner's goal, and telemetry named that goal's number. */
  ghost predicate ProperLease(log: seq<Entry>, i: nat)
    requires i < |log|
  {
    log[i].digest == Owner(log[..i]).0 && log[i].named == Owner(log[..i]).1
  }

  /** The one way to sign an improper lease: before any arm permit at all, with a
      digest that telemetry reports under goal number zero. */
  ghost predicate Orphaned(log: seq<Entry>, i: nat)
    requires i < |log|
  {
    NoArmDeed(log[..i]) && log[i].digest != Idle && log[i].named == 0
  }

  /** Every lease is proper, except exactly the orphaned ones. */
  ghost predicate LeasesOk(log: seq<Entry>) {
    forall i :: 0 <= i < |log| ==> LeaseOk(log, i)
  }

  ghost predicate LeaseOk(log: seq<Entry>, i: nat)
    requires i < |log|
  {
    log[i].target.ArmTarget? && log[i].kind.Lease? ==> (ProperLease(log, i) <==> !Orphaned(log, i))
  }

  ghost predicate AllBounded(log: seq<Entry>, maxAge: int) { forall i :: 0 <= i < |log| ==> BoundedAt(log, i, maxAge) }

  ghost predicate BoundedAt(log: seq<Entry>, i: nat, maxAge: int)
    requires i < |log|
  {
    Bounded(log[i], maxAge)
  }

  lemma AppendKeepsBounds(log: seq<Entry>, maxAge: int, e: Entry)
    requires AllBounded(log, maxAge) && Bounded(e, maxAge)
    ensures AllBounded(log + [e], maxAge)
  {
    forall i | 0 <= i < |log + [e]|
      ensures BoundedAt(log + [e], i, maxAge)
    {
      if i < |log| { assert BoundedAt(log, i, maxAge); }
    }
  }

  /** What the owner believes about the arm agrees with what it signed, or no arm
      permit was signed yet and an unsigned goal was left behind. */
  ghost predicate Agrees(log: seq<Entry>, active: Digest, goal: int) {
    (active, goal) == Owner(log) || (NoArmDeed(log) && goal == 0)
  }

  lemma {:induction false} NoDeedNoOwner(log: seq<Entry>)
    requires NoArmDeed(log)
    ensures Owner(log) == (Idle, 0)
  {
    if log != [] { NoDeedNoOwner(log[..|log| - 1]); }
  }

  /** A lease for this digest and number would be proper, or else orphaned. */
  ghost predicate LeaseFits(log: seq<Entry>, digest: Digest, named: int) {
    (digest, named) == Owner(log) <==> !(NoArmDeed(log) && digest != Idle && named == 0)
  }

  lemma LeaseChoice(log: seq<Entry>, active: Digest, goal: int)
    requires Agrees(log, active, goal)
    ensures LeaseFits(log, active, goal)
  {
    if NoArmDeed(log) { NoDeedNoOwner(log); }
  }

  lemma AppendKeepsLeases(log: seq<Entry>, e: Entry)
    requires LeasesOk(log)
    requires e.target.ArmTarget? && e.kind.Lease? ==>
               LeaseFits(log, e.digest, e.named)
    ensures LeasesOk(log + [e])
  {
    var longer := log + [e];
    forall i | 0 <= i < |longer|
      ensures LeaseOk(longer, i)
    {
      if i < |log| {
        assert longer[..i] == log[..i];
        assert LeaseOk(log, i);
      } else {
        assert longer[..i] == log;
      }
    }
  }

  lemma OwnerAfter(log: seq<Entry>, e: Entry)
    ensures Owner(log + [e])
            == if ArmDeed(e) then if e.kind.Goal? then (e.digest, e.seq_) else (Idle, 0) else Owner(log)
    ensures NoArmDeed(log + [e]) <==> NoArmDeed(log) && !ArmDeed(e)
  {
    var longer := log + [e];
    assert longer[..|log|] == log && longer[|log|] == e;
    if NoArmDeed(longer) {
      forall i | 0 <= i < |log|
        ensures !ArmDeed(log[i])
      {
        assert longer[i] == log[i];
      }
    }
  }

  /** Each entry was signed under the world its observations had led to. */
  ghost predicate WorldsRecorded(log: seq<Entry>, seen: seq<Observation>) {
    forall i :: 0 <= i < |log| ==> WorldRecorded(log, i, seen)
  }

  ghost predicate WorldRecorded(log: seq<Entry>, i: nat, seen: seq<Observation>)
    requires i < |log|
  {
    log[i].seen <= |seen| && log[i].world == WorldAfter(seen[..log[i].seen])
  }

  lemma ObserveKeepsWorlds(log: seq<Entry>, seen: seq<Observation>, o: Observation)
    requires WorldsRecorded(log, seen)
    ensures WorldsRecorded(log, seen + [o])
    ensures WorldAfter(seen + [o]) == Observed(WorldAfter(seen), o.stampMs, o.wall)
  {
    var longer := seen + [o];
    assert longer[..|seen|] == seen;
    forall i | 0 <= i < |log|
      ensures WorldRecorded(log, i, longer)
    {
      assert WorldRecorded(log, i, seen);
      assert longer[..log[i].seen] == seen[..log[i].seen];
    }
  }

  lemma SignKeepsWorlds(log: seq<Entry>, seen: seq<Observation>, e: Entry)
    requires WorldsRecorded(log, seen) && e.seen == |seen| && e.world == WorldAfter(seen)
    ensures WorldsRecorded(log + [e], seen)
  {
    forall i | 0 <= i < |log + [e]|
      ensures WorldRecorded(log + [e], i, seen)
    {
      if i < |log| { assert WorldRecorded(log, i, seen); } else { assert seen[..|seen|] == seen; }
    }
  }

  // ---- what a proper lease means ----

  /** Permits to one target are numbered from one without gaps; `base` and `arm`
      are the numbers used so far. */
  ghost predicate Numbered(log: seq<Entry>, base: int, arm: int) {
    if log == [] then base == arm == 0 else
    var e, rest := log[|log| - 1], log[..|log| - 1];
    if e.target.Base? then e.seq_ == base && Numbered(rest, base - 1, arm)
    else e.seq_ == arm && Numbered(rest, base, arm - 1)
  }

  lemma {:induction false} NumbersIncrease(log: seq<Entry>, base: int, arm: int)
    requires Numbered(log, base, arm)
    ensures base >= 0 && arm >= 0
    ensures forall i :: 0 <= i < |log| ==> 0 < log[i].seq_ <= if log[i].target.Base? then base else arm
    ensures forall i, j :: 0 <= i < j < |log| && log[i].target == log[j].target ==> log[i].seq_ < log[j].seq_
  {
    if log != [] {
      var rest := log[..|log| - 1];
      if log[|log| - 1].target.Base? {
        NumbersIncrease(rest, base - 1, arm);
      } else {
        NumbersIncrease(rest, base, arm - 1);
      }
      assert forall i :: 0 <= i < |rest| ==> rest[i] == log[i];
    }
  }

  /** Goal j is the latest arm deed before position i. */
  ghost predicate Governs(log: seq<Entry>, j: nat, i: nat) {
    j < i <= |log| && log[j].target.ArmTarget? && log[j].kind.Goal? && (forall k :: j < k < i ==> !ArmDeed(log[k]))
  }

  lemma {:induction false} OwnerGoverns(log: seq<Entry>, i: nat) returns (j: nat)
    requires i <= |log|
    ensures Governs(log, j, i) ==> Owner(log[..i]) == (log[j].digest, log[j].seq_)
    ensures !Governs(log, j, i) ==> Owner(log[..i]) == (Idle, 0) && forall k: nat :: !Governs(log, k, i)
  {
    j := 0;
    if i > 0 {
      assert log[..i][..i - 1] == log[..i - 1];
      if ArmDeed(log[i - 1]) {
        j := i - 1;
      } else {
        j := OwnerGoverns(log, i - 1);
        assert forall k: nat :: Governs(log, k, i) ==> Governs(log, k, i - 1);
      }
    }
  }

  /** A proper lease with a number names one goal permit of all ever signed: the
      governing one, with the same digest. Without a number it is idle and no
      goal governs. So an earlier goal with an equal trajectory cannot stand in
      for a later one. */
  lemma ProperLeaseNamesItsGoal(log: seq<Entry>, base: int, arm: int, i: nat) returns (j: nat)
    requires Numbered(log, base, arm) && i < |log| && log[i].target.ArmTarget? && log[i].kind.Lease?
    requires ProperLease(log, i)
    ensures log[i].named != 0 ==>
              (Governs(log, j, i) && log[j].digest == log[i].digest && log[j].seq_ == log[i].named
               && forall k :: 0 <= k < |log| && log[k].target.ArmTarget? && log[k].seq_ == log[i].named ==> k == j)
    ensures log[i].named == 0 ==> log[i].digest == Idle && forall k: nat :: !Governs(log, k, i)
  {
    NumbersIncrease(log, base, arm);
    j := OwnerGoverns(log, i);
  }

  lemma SignKeepsNumbers(log: seq<Entry>, base: int, arm: int, e: Entry)
    requires Numbered(log, base, arm) && e.seq_ == 1 + if e.target.Base? then base else arm
    ensures Numbered(log + [e], if e.target.Base? then base + 1 else base, if e.target.Base? then arm else arm + 1)
  {
    assert (log + [e])[..|log|] == log;
  }

  // ---- what one call may add ----

  /** The readings of both clocks before each signature of a request, and whether
      its answer renews a lease at all. */
  datatype Terms = Terms(command: Reading, goal: Reading, beat: Reading, renews: bool)

  /** What a permit that can act takes from its request: the clocks, the active
      expiry, the observations so far, the arm's latest telemetry, and its terms. */
  datatype Origin = Origin(sim: int, wall: int, expiry: Option<int>, seen: nat, telemetry: Telemetry, terms: Terms)

  /** The reading just before such a permit is signed. */
  function LookedAt(terms: Terms, target: Target, kind: Kind): Reading {
    if target.Base? then terms.command else if kind.Goal? then terms.goal else terms.beat
  }

  /** The permit stems from this request; a lease says what telemetry says. */
  predicate Stems(e: Entry, o: Origin) {
    e.simStart == o.sim && e.wallStart == o.wall && e.expiry == o.expiry && e.seen == o.seen
    && e.named == o.telemetry.sequence
    && e.at == LookedAt(o.terms, e.target, e.kind)
    && (e.target.ArmTarget? && e.kind.Lease? ==> e.digest == o.telemetry.admitted)
    && (e.target.ArmTarget? && (e.kind.Lease? || e.kind.Reset?) ==> o.terms.renews)
  }

  /** What a stretch of signing may contain: only stops, or also permits of one request. */
  datatype Allowed = OnlyStops | Of(origin: Origin)

  predicate Allows(allowed: Allowed, e: Entry) { e.kind.Stop? || (allowed.Of? && Stems(e, allowed.origin)) }

  /** `after` is `before` and then more permits, all allowed. */
  ghost predicate Grows(before: seq<Entry>, after: seq<Entry>, allowed: Allowed)
    decreases |after|
  {
    before == after
    || (after != [] && Allows(allowed, after[|after| - 1]) && Grows(before, after[..|after| - 1], allowed))
  }

  lemma GrowsByOne(log: seq<Entry>, e: Entry, allowed: Allowed)
    requires Allows(allowed, e)
    ensures Grows(log, log + [e], allowed)
  {
    assert (log + [e])[..|log|] == log;
  }

  lemma {:induction false} GrowsOn(a: seq<Entry>, b: seq<Entry>, c: seq<Entry>, allowed: Allowed)
    requires Grows(a, b, allowed) && Grows(b, c, allowed)
    ensures Grows(a, c, allowed)
    decreases |c|
  {
    if b != c { GrowsOn(a, b, c[..|c| - 1], allowed); }
  }

  lemma {:induction false} GrowsQuietly(a: seq<Entry>, b: seq<Entry>, allowed: Allowed)
    requires Grows(a, b, OnlyStops)
    ensures Grows(a, b, allowed)
    decreases |b|
  {
    if a != b { GrowsQuietly(a, b[..|b| - 1], allowed); }
  }

  lemma {:induction false} GrowsMeans(before: seq<Entry>, after: seq<Entry>, allowed: Allowed)
    requires Grows(before, after, allowed)
    ensures before <= after && forall i :: |before| <= i < |after| ==> Allows(allowed, after[i])
    decreases |after|
  {
    if before != after { GrowsMeans(before, after[..|after| - 1], allowed); }
  }

  /** A frozen world: answers that bring nothing newer leave the anchor alone. */
  lemma {:induction false} FrozenWorldKeepsAnchor(seen: seq<Observation>, more: seq<Observation>)
    requires WorldAfter(seen).Some?
    requires forall i :: 0 <= i < |more| && Accepts(more[i]) ==>
               Ns(more[i].stampMs.value) <= WorldAfter(seen).value.stamp
    ensures WorldAfter(seen + more) == WorldAfter(seen)
  {
    if more == [] {
      assert seen + more == seen;
    } else {
      var n := |more| - 1;
      FrozenWorldKeepsAnchor(seen, more[..n]);
      assert (seen + more)[..|seen| + n] == seen + more[..n];
    }
  }

  /** One arm permit was added. */
  ghost predicate Signs(before: seq<Entry>, after: seq<Entry>, kind: Kind, digest: Digest, number: int, named: int) {
    |after| == |before| + 1 && after[..|before|] == before
    && var e := after[|before|];
       e.target.ArmTarget? && e.kind == kind && e.digest == digest && e.seq_ == number && e.named == named
  }

  /** The owner after a signed arm permit. */
  lemma SignedAgrees(before: seq<Entry>, after: seq<Entry>, kind: Kind, digest: Digest, number: int, named: int,
                     active: Digest, goal: int)
    requires Signs(before, after, kind, digest, number, named) && !kind.Command?
    requires kind.Lease? ==> Agrees(before, active, goal)
    requires kind.Goal? ==> active == digest && goal == number
    requires kind.Stop? || kind.Reset? ==> active == Idle && goal == 0
    ensures Agrees(after, active, goal)
  {
    var e := after[|before|];
    assert after == before + [e];
    OwnerAfter(before, e);
  }

  /** The arm's books are as they were. */
  ghost predicate SameOwner(before: seq<Entry>, after: seq<Entry>) {
    Owner(after) == Owner(before) && (NoArmDeed(after) <==> NoArmDeed(before))
  }

  lemma SameOwnerAgrees(before: seq<Entry>, after: seq<Entry>, active: Digest, goal: int)
    requires SameOwner(before, after)
    ensures Agrees(before, active, goal) <==> Agrees(after, active, goal)
  {
  }
}
