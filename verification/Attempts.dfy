/** Positive cases and their retries: the first refusal or lock after a send is a
    fault unless a signed time bound explains it, and a delay never counts as a
    pass. */
module Attempts {
  import opened Bytes
  import opened Refusal

  // ---- the grants a harness sent ----

  /** `in_flight`: a permit was sent that the controller has not counted. */
  predicate InFlight(sent: nat, before: int, accepted: Option<int>) {
    accepted.None? || accepted.value < before + sent
  }

  /** `admitted`: the index of the grant a count names, -1 before the first. */
  function Admitted(grants: seq<Grant>, before: int, accepted: Option<int>): Option<int> {
    if accepted.None? || !(-1 <= accepted.value - before - 1 < |grants|) then None
    else Some(accepted.value - before - 1)
  }

  function GrantAt(grants: seq<Grant>, index: int): Option<Grant> {
    if 0 <= index < |grants| then Some(grants[index]) else None
  }

  /** Grants in send order, and the controller's count before the first. */
  class GrantChain {
    var grants: seq<Grant>
    const acceptedBefore: int

    constructor (first: Grant, acceptedBefore: int)
      ensures grants == [first] && this.acceptedBefore == acceptedBefore
    {
      grants, this.acceptedBefore := [first], acceptedBefore;
    }

    /** `in_flight`, then `sent`: the permit leaves if none is in flight by the
        count last seen. */
    method SendIfCounted(fields: Grant, accepted: Option<int>) returns (sent: bool)
      modifies this
      ensures sent <==> !InFlight(|old(grants)|, acceptedBefore, accepted)
      ensures grants == if sent then old(grants) + [fields] else old(grants)
    {
      sent := accepted.Some? && accepted.value >= acceptedBefore + |grants|;
      if sent { grants := grants + [fields]; }
    }

    /** The grant that a count names; None where the harness raises. */
    method AdmittedGrant(accepted: Option<int>) returns (r: Option<Option<Grant>>)
      ensures var index := Admitted(grants, acceptedBefore, accepted);
              r == if index.None? then None else Some(GrantAt(grants, index.value))
    {
      if accepted.None? { return None; }
      var index := accepted.value - acceptedBefore - 1;
      if !(-1 <= index < |grants|) { return None; }
      return Some(if index >= 0 then Some(grants[index]) else None);
    }
  }

  /** Controller and harness: what was sent, what of it was counted, in order, and
      the latest count the harness has seen. */
  datatype Exchange = Exchange(sent: seq<Grant>, counted: seq<Grant>, known: Option<int>)

  /** `Count(skip)`: the controller counts an uncounted grant, passing over some. */
  datatype Move = Send(fields: Grant) | Count(skip: nat) | See(accepted: int)

  /** A permit leaves only when none is in flight; the controller counts what
      arrives, or never; telemetry shows some earlier or current count. */
  function Moved(before: int, x: Exchange, m: Move): Option<Exchange> {
    match m
    case Send(fields) => if InFlight(|x.sent|, before, x.known) then None else Some(x.(sent := x.sent + [fields]))
    case Count(skip) =>
      if |x.counted| + skip < |x.sent| then Some(x.(counted := x.counted + [x.sent[|x.counted| + skip]])) else None
    case See(accepted) => if before <= accepted <= before + |x.counted| then Some(x.(known := Some(accepted))) else None
  }

  ghost predicate Exchanges(before: int, states: seq<Exchange>, moves: seq<Move>, first: Grant) {
    |states| == |moves| + 1 && states[0] == Exchange([first], [], None)
    && forall i :: 0 <= i < |moves| ==> Moved(before, states[i], moves[i]) == Some(states[i + 1])
  }

  ghost predicate OneAtATime(before: int, x: Exchange) {
    x.counted <= x.sent && |x.sent| <= |x.counted| + 1
    && (x.known.Some? ==> before <= x.known.value <= before + |x.counted|)
  }

  /** The a-th count names the grant that the controller counted a-th. */
  ghost predicate NamesGrant(before: int, x: Exchange, a: int)
    requires before < a <= before + |x.counted|
  {
    var index := Admitted(x.sent, before, Some(a));
    index.Some? && GrantAt(x.sent, index.value) == Some(x.counted[a - before - 1])
  }

  /** Sending one at a time, the controller's count names exactly the grant it
      counted, in every exchange. */
  lemma {:induction false} CountNamesTheGrant(before: int, states: seq<Exchange>, moves: seq<Move>, first: Grant,
                                              n: nat)
    requires Exchanges(before, states, moves, first) && n <= |moves|
    ensures OneAtATime(before, states[n])
    ensures forall a :: before < a <= before + |states[n].counted| ==> NamesGrant(before, states[n], a)
  {
    if n > 0 {
      CountNamesTheGrant(before, states, moves, first, n - 1);
      assert Moved(before, states[n - 1], moves[n - 1]) == Some(states[n - 1 + 1]);
      MoveKeepsOrder(before, states[n - 1], moves[n - 1], states[n]);
    }
  }

  lemma MoveKeepsOrder(before: int, x: Exchange, m: Move, y: Exchange)
    requires OneAtATime(before, x) && Moved(before, x, m) == Some(y)
    ensures OneAtATime(before, y)
  {
    if m.Count? { assert y.counted == x.sent[..|x.counted| + 1]; }
  }

  /** Whatever is attempted, the object's history is such an exchange: it sends
      exactly when it may, and at the end the grants it names for the counts are
      those that were counted. */
  method Play(first: Grant, before: int, plan: seq<Move>) returns (chain: GrantChain, x: Exchange, named: seq<Grant>)
    ensures exists states, moves :: Exchanges(before, states, moves, first) && states[|moves|] == x
    ensures chain.grants == x.sent && chain.acceptedBefore == before && OneAtATime(before, x)
    ensures named == x.counted
  {
    chain := new GrantChain(first, before);
    x := Exchange([first], [], None);
    ghost var states, moves := [x], [];
    for i := 0 to |plan|
      invariant Exchanges(before, states, moves, first) && states[|moves|] == x
      invariant fresh(chain) && chain.grants == x.sent && chain.acceptedBefore == before
    {
      var next := Moved(before, x, plan[i]);
      if plan[i].Send? {
        var sent := chain.SendIfCounted(plan[i].fields, x.known);
        assert sent <==> next.Some?;
      }
      if next.Some? {
        Extend(before, states, moves, first, plan[i], next.value);
        x, states, moves := next.value, states + [next.value], moves + [plan[i]];
      }
    }
    CountNamesTheGrant(before, states, moves, first, |moves|);
    named := [];
    for k := 0 to |x.counted|
      invariant chain.grants == x.sent && chain.acceptedBefore == before && named == x.counted[..k]
    {
      assert NamesGrant(before, x, before + k + 1);
      var grant := chain.AdmittedGrant(Some(before + k + 1));
      named := named + [grant.value.value];
    }
    assert named == x.counted;
  }

  lemma Extend(before: int, states: seq<Exchange>, moves: seq<Move>, first: Grant, m: Move, y: Exchange)
    requires Exchanges(before, states, moves, first) && Moved(before, states[|moves|], m) == Some(y)
    ensures Exchanges(before, states + [y], moves + [m], first)
  {
  }

  // ---- the first fail-closed event ----

  predicate FailsClosed(row: Row, since: int, before: int) {
    row.published >= since && (row.rejected > before || row.reason == Some("expired"))
  }

  ghost predicate FirstFail(rows: seq<Row>, since: int, before: int, e: nat) {
    e < |rows| && FailsClosed(rows[e], since, before) && forall i :: 0 <= i < e ==> !FailsClosed(rows[i], since, before)
  }

  /** `first_fail_closed` */
  method FirstFailClosed(rows: seq<Row>, since: int, before: int) returns (r: Option<nat>)
    ensures forall e: nat :: r == Some(e) <==> FirstFail(rows, since, before, e)
    ensures r.None? <==> forall i :: 0 <= i < |rows| ==> !FailsClosed(rows[i], since, before)
  {
    for i := 0 to |rows|
      invariant forall j :: 0 <= j < i ==> !FailsClosed(rows[j], since, before)
    {
      if FailsClosed(rows[i], since, before) { return Some(i); }
    }
    return None;
  }

  /** A lock that a lapse of authority could cause. */
  predicate IsLock(target: Target, row: Row, before: int) {
    || (row.rejected == before && row.reason == Some("expired"))
    || (row.rejected == before + 1 && row.reason == Some("locked"))
    || (row.rejected == before + 1 && row.reason == Some("rejected") && target.Arm?)
  }

  predicate Freshness(row: Row, before: int) { row.rejected == before + 1 && row.reason == Some("freshness") }

  /** The lock is judged by the goal's own window, not by a lease. */
  predicate ByWindow(row: Row, grant: Option<Grant>) {
    row.reason == Some("rejected") && grant.Some? && grant.value.kind == "arm-goal"
  }

  /** The hold reaches the end of the goal's 50 ms window. */
  predicate PastWindow(row: Row, goal: Grant)
    requires Stamped(row)
  {
    row.cutoff.value * 1_000_000 >= goal.sim + VERIFIER_WINDOW_NS - CONTROLLER_UPDATE_NS
  }

  datatype Harness = Harness(target: Target, since: int, before: int, grants: seq<Grant>, acceptedBefore: int,
                             after: Option<int>)

  /** The telemetry names a grant the harness sent. */
  predicate Named(h: Harness, row: Row) { Admitted(h.grants, h.acceptedBefore, row.accepted).Some? }

  function Governing(h: Harness, row: Row): Option<Grant>
    requires Named(h, row)
  {
    GrantAt(h.grants, Admitted(h.grants, h.acceptedBefore, row.accepted).value)
  }

  /** A signed bound that could have closed by then explains the event. */
  ghost predicate BoundExplains(h: Harness, rows: seq<Row>, e: nat) {
    e < |rows| && IsLock(h.target, rows[e], h.before) && Named(h, rows[e])
    && var grant := Governing(h, rows[e]);
       if ByWindow(rows[e], grant)
       then exists k: nat :: PromptHold(rows, e, h.after, k) && PastWindow(rows[k], grant.value)
       else CanBeLapse(h.target, rows, e, grant, h.after)
  }

  /** The hold that would decide it is not visible yet. */
  ghost predicate BoundPending(h: Harness, rows: seq<Row>, e: nat) {
    e < |rows| && IsLock(h.target, rows[e], h.before) && Named(h, rows[e]) && HoldPending(rows, e, h.after)
    && var grant := Governing(h, rows[e]); ByWindow(rows[e], grant) || (h.target.Arm? && grant.Some?)
  }

  datatype Finding = Clear | Waiting | Delayed | Fault

  /** The finding is clear exactly without an event, a delay exactly when the
      verifier's own freshness refusal or a signed bound explains the first one,
      waiting exactly while its hold is pending, and a fault otherwise. */
  ghost predicate Sound(h: Harness, rows: seq<Row>, v: Finding) {
    (v.Clear? <==> forall i :: 0 <= i < |rows| ==> !FailsClosed(rows[i], h.since, h.before))
    && (v.Delayed? <==> exists e: nat :: FirstFail(rows, h.since, h.before, e)
                                         && (Freshness(rows[e], h.before) || BoundExplains(h, rows, e)))
    && (v.Waiting? <==> exists e: nat :: FirstFail(rows, h.since, h.before, e) && BoundPending(h, rows, e))
  }

  /** `require_no_fail_closed` */
  method RequireNoFailClosed(h: Harness, rows: seq<Row>) returns (v: Finding)
    ensures Sound(h, rows, v)
  {
    var event := FirstFailClosed(rows, h.since, h.before);
    if event.None? { return Clear; }
    v := Classify(h, rows, event.value);
    assert FirstFail(rows, h.since, h.before, event.value);
  }

  method Classify(h: Harness, rows: seq<Row>, e: nat) returns (v: Finding)
    requires FirstFail(rows, h.since, h.before, e)
    ensures !v.Clear?
    ensures v.Delayed? <==> Freshness(rows[e], h.before) || BoundExplains(h, rows, e)
    ensures v.Waiting? <==> BoundPending(h, rows, e)
  {
    var row := rows[e];
    if Freshness(row, h.before) { return Delayed; }
    if !IsLock(h.target, row, h.before) || !Named(h, row) { return Fault; }
    var grant := Governing(h, row);
    var lapse: Lapse;
    if ByWindow(row, grant) {
      lapse := GoalWindowEvidence(rows, e, grant.value, h.after);
    } else {
      lapse := LapseEvidence(h.target, rows, e, grant, h.after);
    }
    match lapse {
      case Pending => return Waiting;
      case Yes => return Delayed;
      case No => return Fault;
      case LapseFault => return Fault;
    }
  }

  /** `goal_window_evidence` */
  method GoalWindowEvidence(rows: seq<Row>, e: nat, goal: Grant, after: Option<int>) returns (r: Lapse)
    requires e < |rows|
    ensures r.Yes? <==> exists k: nat :: PromptHold(rows, e, after, k) && PastWindow(rows[k], goal)
    ensures r.Pending? <==> HoldPending(rows, e, after)
  {
    var held := HoldEvidence(rows, e, after);
    match held {
      case NotYet => return Pending;
      case HoldFault => return LapseFault;
      case Held(k) => return if PastWindow(rows[k], goal) then Yes else No;
    }
  }

  // ---- retries ----

  /** What one run of a case gives: a result, a delay, or any other exception. */
  datatype Outcome = Passed | Delay | Raised

  datatype Report = PassedAt(attempt: nat) | FailedAt(attempt: nat)

  /** `bounded_attempts`: run n is attempt n + 1. Only delays lead to another
      attempt, and delays alone never pass. */
  method BoundedAttempts(body: nat -> Outcome, attempts: nat) returns (r: Report, log: seq<Outcome>)
    ensures forall k: nat :: r == PassedAt(k) <==>
              1 <= k <= attempts && body(k - 1) == Passed && forall i: nat :: i < k - 1 ==> body(i) == Delay
    ensures |log| <= attempts && forall i :: 0 <= i < |log| ==> log[i] == body(i)
    ensures r.FailedAt? ==>
              (|log| == attempts && forall i :: 0 <= i < |log| ==> log[i] == Delay)
              || (log != [] && log[|log| - 1] == Raised && forall i :: 0 <= i < |log| - 1 ==> log[i] == Delay)
  {
    log := [];
    while |log| < attempts
      invariant |log| <= attempts && forall i :: 0 <= i < |log| ==> log[i] == body(i) == Delay
    {
      var n := |log|;
      var outcome := body(n);
      log := log + [outcome];
      if outcome.Raised? { return FailedAt(n + 1), log; }
      if outcome.Passed? { return PassedAt(n + 1), log; }
    }
    return FailedAt(attempts), log;
  }
}
