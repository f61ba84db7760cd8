/** The judge of refused packets: what controller telemetry must show before a
    refusal counts as one, and when a delay makes an attempt inconclusive. */
module Refusal {
  import opened Bytes

  const UPDATE_MS: int := 10
  const HOLD_UPDATES: int := 3
  const CONTROLLER_UPDATE_NS: int := 10_000_000
  const LAPSE_ALLOWANCE_NS: int := 20_000_000
  const VERIFIER_WINDOW_NS: int := 50_000_000

  datatype Target = Base | Arm

  /** One telemetry row; the fields that may be missing or mistyped are options. */
  datatype Row = Row(published: int, nonce: Option<string>, accepted: Option<int>, rejected: int,
                     reason: Option<string>,
                     holding: bool, stamp: Option<int>, stop: Option<int>, cutoff: Option<int>)

  /** The signed bounds of a grant. */
  datatype Grant = Grant(kind: string, sim: int, simEnd: int, wallEnd: int)

  datatype Witness = Witness(sent: int, since: int, nonce: Option<string>, accepted: Option<int>, rejected: int)

  // ---- the arm's hold ----

  predicate Stamped(row: Row) { row.holding && row.stop.Some? && row.cutoff.Some? }

  /** Row h is the first to carry a hold stamped at or after `after`. */
  ghost predicate FirstHold(rows: seq<Row>, after: Option<int>, h: nat) {
    h < |rows| && after.Some? && Stamped(rows[h]) && rows[h].stop.value >= after.value
    && forall i :: 0 <= i < h && Stamped(rows[i]) ==> rows[i].stop.value < after.value
  }

  /** Comparing a stamp with a missing bound is a type error. */
  datatype Search = Found(row: nat) | Missing | TypeFault

  /** `hold_row` */
  method HoldRow(rows: seq<Row>, after: Option<int>) returns (r: Search)
    ensures forall h: nat :: r == Found(h) <==> FirstHold(rows, after, h)
    ensures r.Missing? <==>
              forall i :: 0 <= i < |rows| && Stamped(rows[i]) ==> after.Some? && rows[i].stop.value < after.value
  {
    for i := 0 to |rows|
      invariant forall j :: 0 <= j < i && Stamped(rows[j]) ==> after.Some? && rows[j].stop.value < after.value
    {
      if Stamped(rows[i]) {
        if after.None? { return TypeFault; }
        if rows[i].stop.value >= after.value { return Found(i); }
      }
    }
    return Missing;
  }

  function Limit(stamp: int): int { stamp + HOLD_UPDATES * UPDATE_MS }

  /** The hold began within three updates of the event's own update. */
  ghost predicate PromptHold(rows: seq<Row>, event: nat, after: Option<int>, h: nat) {
    event < |rows| && FirstHold(rows, after, h) && rows[event].stamp.Some?
    && rows[h].cutoff.value <= Limit(rows[event].stamp.value)
  }

  datatype Hold = Held(row: nat) | NotYet | HoldFault

  predicate UpdatesPast(rows: seq<Row>, event: nat, limit: int) {
    exists i :: event <= i < |rows| && rows[i].stamp.Some? && rows[i].stamp.value > limit
  }

  /** No hold yet, and the controller has not run past the limit without one. */
  ghost predicate HoldPending(rows: seq<Row>, event: nat, after: Option<int>) {
    event < |rows| && rows[event].stamp.Some? && !UpdatesPast(rows, event, Limit(rows[event].stamp.value))
    && forall i :: 0 <= i < |rows| && Stamped(rows[i]) ==> after.Some? && rows[i].stop.value < after.value
  }

  /** `hold_evidence` */
  method HoldEvidence(rows: seq<Row>, event: nat, after: Option<int>) returns (r: Hold)
    requires event < |rows|
    ensures forall h: nat :: r == Held(h) <==> PromptHold(rows, event, after, h)
    ensures r.NotYet? <==> HoldPending(rows, event, after)
  {
    if rows[event].stamp.None? { return HoldFault; }
    var limit := Limit(rows[event].stamp.value);
    var held := HoldRow(rows, after);
    match held {
      case Found(h) => return if rows[h].cutoff.value > limit then HoldFault else Held(h);
      case TypeFault => return HoldFault;
      case Missing =>
        return if UpdatesPast(rows, event, limit) then HoldFault else NotYet;
    }
  }

  /** `hold_at_lease_end`: the hold's stamps reach an end of the grant. */
  predicate AtLeaseEnd(row: Row, grant: Grant)
    requires Stamped(row)
  {
    row.stop.value >= grant.wallEnd || row.cutoff.value * 1_000_000 >= grant.simEnd - CONTROLLER_UPDATE_NS
  }

  // ---- the lapse of a lease ----

  datatype Lapse = Yes | No | Pending | LapseFault

  /** The event may be the lapse of this grant. */
  ghost predicate CanBeLapse(target: Target, rows: seq<Row>, event: nat, grant: Option<Grant>, after: Option<int>) {
    event < |rows| && grant.Some?
    && match target {
         case Base => rows[event].published >= grant.value.wallEnd - LAPSE_ALLOWANCE_NS
         case Arm => exists h: nat :: PromptHold(rows, event, after, h) && AtLeaseEnd(rows[h], grant.value)
       }
  }

  /** `lapse_evidence` */
  method LapseEvidence(target: Target, rows: seq<Row>, event: nat, grant: Option<Grant>, after: Option<int>)
    returns (r: Lapse)
    requires event < |rows|
    ensures r.Yes? <==> CanBeLapse(target, rows, event, grant, after)
    ensures r.Pending? <==> target.Arm? && grant.Some? && HoldPending(rows, event, after)
  {
    if grant.None? { return No; }
    if target.Base? {
      return if rows[event].published >= grant.value.wallEnd - LAPSE_ALLOWANCE_NS then Yes else No;
    }
    var held := HoldEvidence(rows, event, after);
    match held {
      case NotYet => return Pending;
      case HoldFault => return LapseFault;
      case Held(h) => return if AtLeaseEnd(rows[h], grant.value) then Yes else No;
    }
  }

  // ---- the refusal ----

  predicate Same(row: Row, w: Witness) { row.nonce == w.nonce && row.accepted == w.accepted }

  /** Before the refusal: no new rejection, and no lapse of the governing lease. */
  predicate Quiet(row: Row, w: Witness, governed: bool) {
    row.rejected <= w.rejected && !(row.reason == Some("expired") && governed)
  }

  /** From the refusal on: exactly one more rejection, counted after the send. */
  predicate Counted(row: Row, w: Witness) { row.published >= w.sent && row.rejected == w.rejected + 1 }

  /** The rows from the witness on, up to n, all fit a refusal at row f. */
  ghost predicate Splits(rows: seq<Row>, w: Witness, governed: bool, f: nat, n: nat) {
    f < n <= |rows| && rows[f].published >= w.since
    && forall i :: 0 <= i < n && rows[i].published >= w.since ==>
         Same(rows[i], w) && (if i < f then Quiet(rows[i], w, governed) else Counted(rows[i], w))
  }

  /** Row l is the first from f on that holds and still shows the reason. */
  ghost predicate FirstLatch(rows: seq<Row>, f: nat, expected: string, l: nat) {
    f <= l < |rows| && rows[l].holding && rows[l].reason == Some(expected)
    && forall i :: f <= i < l ==> !(rows[i].holding && rows[i].reason == Some(expected))
  }

  /** The refusal at row f, with hold h, is what the telemetry shows. */
  ghost predicate Refuses(target: Target, rows: seq<Row>, w: Witness, expected: string, governing: Option<Grant>,
                          after: Option<int>, f: nat, h: nat) {
    Splits(rows, w, governing.Some?, f, |rows|) && rows[f].reason == Some(expected)
    && if target.Arm? && after.Some?
       then Latches(rows, f, expected) && PromptHold(rows, f, after, h)
            && governing.Some? && !AtLeaseEnd(rows[h], governing.value)
       else FirstLatch(rows, f, expected, h)
  }

  datatype Cause =
    | LapsedBefore(event: nat)
    | FreshnessRefusal(event: nat)
    | IngressLapse(event: nat)
    | HoldAtEnd(event: nat, hold: nat)

  datatype Verdict = Refused(refusal: nat, held: nat) | Undecided | Inconclusive(cause: Cause) | Failed

  /** Rows before n show nothing but time passing. */
  ghost predicate Calm(rows: seq<Row>, w: Witness, governed: bool, n: nat) {
    n <= |rows|
    && forall i :: 0 <= i < n && rows[i].published >= w.since ==> Same(rows[i], w) && Quiet(rows[i], w, governed)
  }

  /** Row e is the first to show more than time passing. */
  ghost predicate FirstEvent(rows: seq<Row>, w: Witness, governed: bool, e: nat) {
    e < |rows| && rows[e].published >= w.since && Calm(rows, w, governed, e)
    && !(Same(rows[e], w) && Quiet(rows[e], w, governed))
  }

  /** The governing lease is seen to lapse, or the arm's ingress refuses with a
      reason that such a lapse could give. */
  ghost predicate LapseEvent(rows: seq<Row>, w: Witness, expected: string, timing: set<string>, governed: bool, e: nat,
                             ingress: bool) {
    FirstEvent(rows, w, governed, e) && Same(rows[e], w)
    && if ingress
       then Counted(rows[e], w) && rows[e].reason.Some? && rows[e].reason.value in timing - {"freshness", expected}
       else rows[e].rejected <= w.rejected && rows[e].reason == Some("expired") && governed
  }

  ghost predicate Latches(rows: seq<Row>, f: nat, expected: string) {
    exists l: nat :: FirstLatch(rows, f, expected, l)
  }

  /** A delay explains the first thing that happened. */
  ghost predicate Explained(target: Target, rows: seq<Row>, w: Witness, expected: string, timing: set<string>,
                            governing: Option<Grant>, after: Option<int>, cause: Cause) {
    var e := cause.event;
    match cause {
      case LapsedBefore(_) =>
        LapseEvent(rows, w, expected, timing, governing.Some?, e, false)
        && CanBeLapse(target, rows, e, governing, after)
      case IngressLapse(_) =>
        LapseEvent(rows, w, expected, timing, governing.Some?, e, true) && CanBeLapse(target, rows, e, governing, after)
      case FreshnessRefusal(_) =>
        FirstEvent(rows, w, governing.Some?, e) && Same(rows[e], w)
        && Counted(rows[e], w) && rows[e].reason == Some("freshness") && "freshness" in timing
        && expected != "freshness"
      case HoldAtEnd(_, h) =>
        Splits(rows, w, governing.Some?, e, |rows|) && rows[e].reason == Some(expected) && Latches(rows, e, expected)
        && target.Arm? && PromptHold(rows, e, after, h) && governing.Some? && AtLeaseEnd(rows[h], governing.value)
    }
  }

  /** A lapse whose hold may still become visible. */
  ghost predicate LapsePending(target: Target, rows: seq<Row>, w: Witness, expected: string, timing: set<string>,
                               governing: Option<Grant>, after: Option<int>, e: nat) {
    target.Arm? && governing.Some? && HoldPending(rows, e, after)
    && (LapseEvent(rows, w, expected, timing, true, e, false) || LapseEvent(rows, w, expected, timing, true, e, true))
  }

  /** A refusal whose latch or hold may still become visible. */
  ghost predicate LatchPending(target: Target, rows: seq<Row>, w: Witness, expected: string, governing: Option<Grant>,
                               after: Option<int>, f: nat) {
    Splits(rows, w, governing.Some?, f, |rows|) && rows[f].reason == Some(expected)
    && if target.Arm? && after.Some?
       then HoldPending(rows, f, after)
            || (!Latches(rows, f, expected) && exists h: nat :: PromptHold(rows, f, after, h))
       else !Latches(rows, f, expected)
  }

  /** More telemetry may still settle it. */
  ghost predicate Open(target: Target, rows: seq<Row>, w: Witness, expected: string, timing: set<string>,
                       governing: Option<Grant>, after: Option<int>) {
    Calm(rows, w, governing.Some?, |rows|)
    || (exists e: nat :: LapsePending(target, rows, w, expected, timing, governing, after, e))
    || (exists f: nat :: LatchPending(target, rows, w, expected, governing, after, f))
  }

  /** The verdict is a result exactly when the telemetry shows the refusal,
      inconclusive exactly when a delay explains what it shows, undecided exactly
      while it is open, and a failure in every other case. */
  ghost predicate Right(target: Target, rows: seq<Row>, w: Witness, expected: string, timing: set<string>,
                        governing: Option<Grant>, after: Option<int>, v: Verdict) {
    (forall f: nat, h: nat :: v == Refused(f, h) <==> Refuses(target, rows, w, expected, governing, after, f, h))
    && (forall c :: v == Inconclusive(c) <==> Explained(target, rows, w, expected, timing, governing, after, c))
    && (v.Undecided? <==> Open(target, rows, w, expected, timing, governing, after))
  }

  /** The first event is what every outcome is about. */
  lemma OneEvent(target: Target, rows: seq<Row>, w: Witness, expected: string, timing: set<string>,
                 governing: Option<Grant>, after: Option<int>, e: nat)
    requires FirstEvent(rows, w, governing.Some?, e)
    ensures !Calm(rows, w, governing.Some?, |rows|)
    ensures forall f: nat :: Splits(rows, w, governing.Some?, f, |rows|) ==> f == e
    ensures forall c :: Explained(target, rows, w, expected, timing, governing, after, c) ==> c.event == e
    ensures forall x: nat :: LapsePending(target, rows, w, expected, timing, governing, after, x) ==> x == e
  {
    var governed := governing.Some?;
    forall f: nat | Splits(rows, w, governed, f, |rows|)
      ensures f == e
    {
      assert FirstEvent(rows, w, governed, f);
      SameEvent(rows, w, governed, f, e);
    }
    forall c | Explained(target, rows, w, expected, timing, governing, after, c)
      ensures c.event == e
    {
      if !c.HoldAtEnd? { SameEvent(rows, w, governed, c.event, e); }
    }
    forall x: nat | LapsePending(target, rows, w, expected, timing, governing, after, x)
      ensures x == e
    {
      SameEvent(rows, w, governed, x, e);
    }
  }

  lemma SameEvent(rows: seq<Row>, w: Witness, governed: bool, a: nat, b: nat)
    requires FirstEvent(rows, w, governed, a) && FirstEvent(rows, w, governed, b)
    ensures a == b
  {
  }

  /** A lapse settles everything but whether its hold is visible yet. */
  lemma LapseSettles(target: Target, rows: seq<Row>, w: Witness, expected: string, timing: set<string>,
                     governing: Option<Grant>, after: Option<int>, e: nat, ingress: bool, v: Verdict)
    requires LapseEvent(rows, w, expected, timing, governing.Some?, e, ingress)
    requires LapseVerdict(target, rows, e, governing, after, if ingress then IngressLapse(e) else LapsedBefore(e), v)
    ensures Right(target, rows, w, expected, timing, governing, after, v)
  {
    OneEvent(target, rows, w, expected, timing, governing, after, e);
    if target.Arm? && governing.Some? && HoldPending(rows, e, after) {
      assert LapsePending(target, rows, w, expected, timing, governing, after, e);
    }
  }

  /** Once every row fits a refusal, only its latch and hold are in question. */
  lemma RefusalSettles(target: Target, rows: seq<Row>, w: Witness, expected: string, timing: set<string>,
                       governing: Option<Grant>, after: Option<int>, f: nat, v: Verdict)
    requires Splits(rows, w, governing.Some?, f, |rows|) && rows[f].reason == Some(expected)
    requires LatchVerdict(target, rows, expected, governing, after, f, v)
    ensures Right(target, rows, w, expected, timing, governing, after, v)
  {
    OneEvent(target, rows, w, expected, timing, governing, after, f);
    assert Counted(rows[f], w);
    assert v.Undecided? <==> LatchPending(target, rows, w, expected, governing, after, f);
  }

  /** What fails: a row that changes the controller's identity or admissions, or
      counts a rejection too early, twice, never again, or for another reason. */
  ghost predicate Breaks(rows: seq<Row>, w: Witness, expected: string, timing: set<string>, governed: bool, e: nat,
                         i: nat) {
    e <= i < |rows| && rows[i].published >= w.since && FirstEvent(rows, w, governed, e)
    && if e < i
       then Splits(rows, w, governed, e, i) && rows[e].reason == Some(expected)
            && !(Same(rows[i], w) && Counted(rows[i], w))
       else !Same(rows[i], w)
            || (rows[i].rejected > w.rejected
                && !(Counted(rows[i], w) && rows[i].reason.Some? && rows[i].reason.value in timing + {expected}))
  }

  lemma BreakSettles(target: Target, rows: seq<Row>, w: Witness, expected: string, timing: set<string>,
                     governing: Option<Grant>, after: Option<int>, e: nat, i: nat)
    requires Breaks(rows, w, expected, timing, governing.Some?, e, i)
    ensures Right(target, rows, w, expected, timing, governing, after, Failed)
  {
    OneEvent(target, rows, w, expected, timing, governing, after, e);
  }

  lemma FreshnessSettles(target: Target, rows: seq<Row>, w: Witness, expected: string, timing: set<string>,
                         governing: Option<Grant>, after: Option<int>, e: nat)
    requires Explained(target, rows, w, expected, timing, governing, after, FreshnessRefusal(e))
    ensures Right(target, rows, w, expected, timing, governing, after, Inconclusive(FreshnessRefusal(e)))
  {
    OneEvent(target, rows, w, expected, timing, governing, after, e);
  }

  lemma CalmSettles(target: Target, rows: seq<Row>, w: Witness, expected: string, timing: set<string>,
                    governing: Option<Grant>, after: Option<int>)
    requires Calm(rows, w, governing.Some?, |rows|)
    ensures Right(target, rows, w, expected, timing, governing, after, Undecided)
  {
  }

  /** `refusal` */
  method Judge(target: Target, rows: seq<Row>, w: Witness, expected: string, timing: set<string>,
               governing: Option<Grant>, after: Option<int>) returns (v: Verdict)
    ensures Right(target, rows, w, expected, timing, governing, after, v)
  {
    var found: Option<nat> := None;
    for i := 0 to |rows|
      invariant found.None? ==> Calm(rows, w, governing.Some?, i)
      invariant found.Some? ==>
                  Splits(rows, w, governing.Some?, found.value, i) && rows[found.value].reason == Some(expected)
    {
      var row := rows[i];
      if row.published < w.since { continue; }
      ghost var event := if found.Some? then found.value else i;
      if !Same(row, w) {
        BreakSettles(target, rows, w, expected, timing, governing, after, event, i);
        return Failed;
      }
      if found.None? && row.rejected <= w.rejected {
        if row.reason == Some("expired") && governing.Some? {
          v := AtLapse(target, rows, i, governing, after, LapsedBefore(i));
          LapseSettles(target, rows, w, expected, timing, governing, after, i, false, v);
          return;
        }
        continue;
      }
      if row.published < w.sent || row.rejected != w.rejected + 1 {
        BreakSettles(target, rows, w, expected, timing, governing, after, event, i);
        return Failed;
      }
      if found.Some? { continue; }
      if row.reason == Some(expected) {
        found := Some(i);
        continue;
      }
      if row.reason.None? || row.reason.value !in timing {
        BreakSettles(target, rows, w, expected, timing, governing, after, event, i);
        return Failed;
      }
      if row.reason == Some("freshness") {
        FreshnessSettles(target, rows, w, expected, timing, governing, after, i);
        return Inconclusive(FreshnessRefusal(i));
      }
      v := AtLapse(target, rows, i, governing, after, IngressLapse(i));
      LapseSettles(target, rows, w, expected, timing, governing, after, i, true, v);
      return;
    }
    if found.None? {
      CalmSettles(target, rows, w, expected, timing, governing, after);
      return Undecided;
    }
    v := Conclude(target, rows, expected, governing, after, found.value);
    RefusalSettles(target, rows, w, expected, timing, governing, after, found.value, v);
  }

  /** A lapse that the lease's end explains is inconclusive; any other fails. */
  ghost predicate LapseVerdict(target: Target, rows: seq<Row>, event: nat, governing: Option<Grant>, after: Option<int>,
                               cause: Cause, v: Verdict) {
    !v.Refused? && (v.Inconclusive? <==> CanBeLapse(target, rows, event, governing, after))
    && (v.Inconclusive? ==> v.cause == cause)
    && (v.Undecided? <==> target.Arm? && governing.Some? && HoldPending(rows, event, after))
  }

  method AtLapse(target: Target, rows: seq<Row>, event: nat, governing: Option<Grant>, after: Option<int>, cause: Cause)
    returns (v: Verdict)
    requires event < |rows|
    ensures LapseVerdict(target, rows, event, governing, after, cause, v)
  {
    var lapse := LapseEvidence(target, rows, event, governing, after);
    match lapse {
      case Pending => return Undecided;
      case Yes => return Inconclusive(cause);
      case No => return Failed;
      case LapseFault => return Failed;
    }
  }

  /** The generator over `rows[found:]`. */
  function LatchFrom(rows: seq<Row>, i: nat, expected: string): (r: Option<nat>)
    requires i <= |rows|
    ensures forall l: nat :: r == Some(l) <==> FirstLatch(rows, i, expected, l)
    decreases |rows| - i
  {
    if i == |rows| then None
    else if rows[i].holding && rows[i].reason == Some(expected) then Some(i)
    else
      var rest := LatchFrom(rows, i + 1, expected);
      assert forall l: nat :: FirstLatch(rows, i, expected, l) <==> FirstLatch(rows, i + 1, expected, l);
      rest
  }

  ghost predicate LatchVerdict(target: Target, rows: seq<Row>, expected: string, governing: Option<Grant>,
                               after: Option<int>, f: nat, v: Verdict)
    requires f < |rows|
  {
    (forall h: nat :: v == Refused(f, h) <==>
       (if target.Arm? && after.Some?
        then Latches(rows, f, expected) && PromptHold(rows, f, after, h)
             && governing.Some? && !AtLeaseEnd(rows[h], governing.value)
        else FirstLatch(rows, f, expected, h)))
    && (v.Refused? ==> v.refusal == f) && (v.Inconclusive? ==> v.cause.HoldAtEnd? && v.cause.event == f)
    && (forall h: nat :: v == Inconclusive(HoldAtEnd(f, h)) <==>
          target.Arm? && governing.Some? && Latches(rows, f, expected)
          && PromptHold(rows, f, after, h) && AtLeaseEnd(rows[h], governing.value))
    && (v.Undecided? <==>
          if target.Arm? && after.Some?
          then HoldPending(rows, f, after)
               || (!Latches(rows, f, expected) && exists h: nat :: PromptHold(rows, f, after, h))
          else !Latches(rows, f, expected))
  }

  /** After the last row: the latch, and for the arm its prompt hold. */
  method Conclude(target: Target, rows: seq<Row>, expected: string, governing: Option<Grant>, after: Option<int>,
                  f: nat)
    returns (v: Verdict)
    requires f < |rows|
    ensures LatchVerdict(target, rows, expected, governing, after, f, v)
  {
    var latched := LatchFrom(rows, f, expected);
    if target.Base? || after.None? {
      return if latched.None? then Undecided else Refused(f, latched.value);
    }
    var held := HoldEvidence(rows, f, after);
    if held.HoldFault? { return Failed; }
    if held.NotYet? || latched.None? { return Undecided; }
    if governing.None? { return Failed; }
    return if AtLeaseEnd(rows[held.row], governing.value)
           then Inconclusive(HoldAtEnd(f, held.row))
           else Refused(f, held.row);
  }
}
