/** The simulated base: acceleration limits, the command deadman, and how far it
    can still go once its command lease has lapsed. Arithmetic is over the reals;
    sine and cosine are any map from yaw to a unit vector. */
module Kinematics {
  import opened Bytes

  const SNAP: real := 0.000000001
  const MAX_STEP: real := 0.1
  const SLICE: real := 0.01

  datatype Limits = Limits(accel: real, decel: real, deadman: real)

  predicate Physical(l: Limits) { l.accel >= 0.0 && l.decel > 0.0 }

  /** What the base drives by, and the length of the path it has driven. */
  datatype Drive = Drive(speed: real, target: real, angular: real, last: Option<real>, path: real)

  datatype Place = Place(x: real, y: real, yaw: real)

  /** A step of time: its length, and the clock at its end. */
  datatype Slice = Slice(dt: real, at: real)

  function Abs(r: real): real { if r < 0.0 then -r else r }
  function Min(a: real, b: real): real { if a < b then a else b }
  function Max(a: real, b: real): real { if a < b then b else a }

  // ---- one step ----

  predicate Leased(last: Option<real>, now: real, deadman: real) {
    last.Some? && 0.0 <= now - last.value < deadman
  }

  /** Opposite signs: over the reals, exactly a negative product. */
  predicate Opposed(speed: real, target: real) { (speed < 0.0 && target > 0.0) || (speed > 0.0 && target < 0.0) }

  function Rate(speed: real, target: real, l: Limits): real {
    if target == 0.0 || Opposed(speed, target) || Abs(target) < Abs(speed) then l.decel else l.accel
  }

  function Snapped(v: real): real { if Abs(v) < SNAP then 0.0 else v }

  /** The speed moves toward the target by at most `most`. */
  function Toward(speed: real, target: real, most: real): real {
    Snapped(speed + Max(-most, Min(most, target - speed)))
  }

  function MostChange(speed: real, target: real, dt: real, l: Limits): real { Rate(speed, target, l) * dt }

  function NextSpeed(speed: real, target: real, dt: real, l: Limits): real {
    Toward(speed, target, MostChange(speed, target, dt, l))
  }

  function Driven(d: Drive, s: Slice, l: Limits): Drive {
    Driving(d, NextSpeed(d.speed, if Leased(d.last, s.at, l.deadman) then d.target else 0.0, s.dt, l), s.dt)
  }

  function Driving(d: Drive, v: real, dt: real): Drive { d.(speed := v, path := d.path + Abs(v) * dt) }

  /** How far the yaw turns; without a lease it does not. */
  function Turn(d: Drive, s: Slice, l: Limits): real {
    if Leased(d.last, s.at, l.deadman) then d.angular * s.dt else 0.0
  }

  /** Cosine and sine of a yaw. */
  type Heading = real -> (real, real)

  ghost predicate Unit(heading: Heading) {
    forall yaw :: heading(yaw).0 * heading(yaw).0 + heading(yaw).1 * heading(yaw).1 == 1.0
  }

  /** Driving at speed v for dt, after turning. */
  function Moved(p: Place, v: real, turn: real, dt: real, heading: Heading): Place {
    var yaw := p.yaw + turn;
    Place(p.x + v * heading(yaw).0 * dt, p.y + v * heading(yaw).1 * dt, yaw)
  }

  // ---- runs ----

  function RunDrive(d: Drive, slices: seq<Slice>, l: Limits): Drive
    decreases |slices|
  {
    if slices == [] then d else RunDrive(Driven(d, slices[0], l), slices[1..], l)
  }

  function RunPlace(p: Place, d: Drive, slices: seq<Slice>, l: Limits, heading: Heading): Place
    decreases |slices|
  {
    if slices == [] then p else
    var next := Driven(d, slices[0], l);
    RunPlace(Moved(p, next.speed, Turn(d, slices[0], l), slices[0].dt, heading), next, slices[1..], l, heading)
  }

  function Total(slices: seq<Slice>): real {
    if slices == [] then 0.0 else slices[0].dt + Total(slices[1..])
  }

  // ---- the base ----

  /** The speed update of `advance`, given the most it may change. */
  method MoveToward(speed: real, target: real, most: real) returns (v: real)
    ensures v == Toward(speed, target, most)
  {
    var delta := Max(-most, Min(most, target - speed));
    v := speed + delta;
    if Abs(v) < SNAP { v := 0.0; }
  }

  class Base {
    var drive: Drive
    var place: Place
    const limits: Limits

    constructor (limits: Limits)
      requires Physical(limits)
      ensures this.limits == limits && drive == Drive(0.0, 0.0, 0.0, None, 0.0) && place == Place(5.0, 5.0, 0.0)
    {
      this.limits := limits;
      drive, place := Drive(0.0, 0.0, 0.0, None, 0.0), Place(5.0, 5.0, 0.0);
    }

    /** `command`; `finite` says whether both numbers are. */
    method Command(linear: real, angular: real, finite: bool, now: real) returns (ok: bool)
      modifies this`drive
      ensures ok == finite
      ensures drive == if ok then old(drive).(target := linear, angular := angular, last := Some(now)) else old(drive)
    {
      if !finite { return false; }
      drive := drive.(target := linear, angular := angular, last := Some(now));
      return true;
    }

    /** `advance`: out-of-range steps are refused without effect. */
    method Advance(s: Slice, heading: Heading) returns (ok: bool)
      modifies this
      ensures ok == (0.0 <= s.dt <= MAX_STEP)
      ensures !ok ==> drive == old(drive) && place == old(place)
      ensures ok ==> drive == Driven(old(drive), s, limits)
                     && place == Moved(old(place), drive.speed, Turn(old(drive), s, limits), s.dt, heading)
    {
      if s.dt < 0.0 || s.dt > MAX_STEP { return false; }
      var turn := Turn(drive, s, limits);
      Accelerate(s);
      place := Moved(place, drive.speed, turn, s.dt, heading);
      return true;
    }

    method Accelerate(s: Slice)
      modifies this`drive
      ensures drive == Driven(old(drive), s, limits)
    {
      var target := if Leased(drive.last, s.at, limits.deadman) then drive.target else 0.0;
      var speed := MoveToward(drive.speed, target, MostChange(drive.speed, target, s.dt, limits));
      drive := Driving(drive, speed, s.dt);
    }

    /** Advancing over the first of some slices leaves the rest to run. */
    method AdvanceFirst(s: Slice, ghost slices: seq<Slice>, heading: Heading)
      requires slices != [] && slices[0] == s && 0.0 <= s.dt <= MAX_STEP
      modifies this
      ensures RunDrive(drive, slices[1..], limits) == RunDrive(old(drive), slices, limits)
      ensures RunPlace(place, drive, slices[1..], limits, heading)
              == RunPlace(old(place), old(drive), slices, limits, heading)
    {
      FirstStep(drive, place, slices, limits, heading);
      var _ := Advance(s, heading);
    }

    /** `_step`: the time since the last call, in slices of at most 10 ms. */
    method CatchUp(lastStep: real, now: real, heading: Heading)
      modifies this
      ensures var slices := Slices(now, now - lastStep);
              drive == RunDrive(old(drive), slices, limits)
              && place == RunPlace(old(place), old(drive), slices, limits, heading)
    {
      var remaining := now - lastStep;
      ghost var slices := Slices(now, remaining);
      while remaining > 0.0
        invariant RunDrive(drive, Slices(now, remaining), limits) == RunDrive(old(drive), slices, limits)
        invariant RunPlace(place, drive, Slices(now, remaining), limits, heading)
               == RunPlace(old(place), old(drive), slices, limits, heading)
        decreases SliceCount(remaining)
      {
        var dt := Min(remaining, SLICE);
        FirstSlice(now, remaining);
        AdvanceFirst(Slice(dt, now - remaining + dt), Slices(now, remaining), heading);
        remaining := remaining - dt;
      }
    }
  }

  // ---- the partition of time ----

  function SliceCount(remaining: real): nat {
    if remaining <= 0.0 then 0 else (remaining / SLICE).Floor + 1
  }

  lemma FewerSlices(remaining: real)
    requires remaining > 0.0
    ensures SliceCount(remaining - Min(remaining, SLICE)) < SliceCount(remaining)
  {
    if remaining >= SLICE {
      assert (remaining - SLICE) / SLICE == remaining / SLICE - 1.0;
    }
  }

  function Slices(now: real, remaining: real): seq<Slice>
    decreases SliceCount(remaining)
  {
    if remaining <= 0.0 then [] else
    var dt := Min(remaining, SLICE);
    FewerSlices(remaining);
    [Slice(dt, now - remaining + dt)] + Slices(now, remaining - dt)
  }

  /** One turn of the loop. */
  lemma FirstSlice(now: real, remaining: real)
    requires remaining > 0.0
    ensures var dt := Min(remaining, SLICE);
            0.0 <= dt <= MAX_STEP && SliceCount(remaining - dt) < SliceCount(remaining)
            && Slices(now, remaining) != [] && Slices(now, remaining)[0] == Slice(dt, now - remaining + dt)
            && Slices(now, remaining)[1..] == Slices(now, remaining - dt)
  {
    FewerSlices(remaining);
  }

  lemma FirstStep(d: Drive, p: Place, slices: seq<Slice>, l: Limits, heading: Heading)
    requires slices != []
    ensures var next := Driven(d, slices[0], l);
            RunDrive(d, slices, l) == RunDrive(next, slices[1..], l)
            && RunPlace(p, d, slices, l, heading)
               == RunPlace(Moved(p, next.speed, Turn(d, slices[0], l), slices[0].dt, heading), next, slices[1..], l,
                           heading)
  {
  }

  /** Every step is one the base accepts. */
  ghost predicate Steps(slices: seq<Slice>) {
    forall i :: 0 <= i < |slices| ==> 0.0 <= slices[i].dt <= MAX_STEP
  }

  /** The slices cover exactly the elapsed time, in order, each one accepted. */
  lemma {:induction false} SlicesPartition(now: real, remaining: real)
    ensures Total(Slices(now, remaining)) == Max(0.0, remaining)
    ensures forall i :: 0 <= i < |Slices(now, remaining)| ==>
              0.0 < Slices(now, remaining)[i].dt <= SLICE && now - remaining < Slices(now, remaining)[i].at <= now
    ensures forall i, j :: 0 <= i < j < |Slices(now, remaining)| ==>
              Slices(now, remaining)[i].at < Slices(now, remaining)[j].at
    decreases SliceCount(remaining)
  {
    if remaining > 0.0 {
      FirstSlice(now, remaining);
      SlicesPartition(now, remaining - Min(remaining, SLICE));
    }
  }

  // ---- braking ----

  /** Braking from speed v to w in time t, driving `path`: no reversal, the speed
      falls with time down to rest, and the path costs at most the energy. */
  ghost predicate Brakes(v: real, w: real, t: real, path: real, decel: real) {
    ((v >= 0.0 && w >= 0.0) || (v <= 0.0 && w <= 0.0)) && Abs(w) <= Max(0.0, Abs(v) - decel * t)
    && 0.0 <= path && 2.0 * decel * path <= v * v - w * w
  }

  /** Braking by `cut`: the sign is kept, and the speed falls by that much, down to rest. */
  lemma TowardRest(v: real, cut: real)
    requires cut >= 0.0
    ensures var w := Toward(v, 0.0, cut);
            ((v >= 0.0 && w >= 0.0) || (v <= 0.0 && w <= 0.0)) && Abs(w) <= Max(0.0, Abs(v) - cut)
            && (w == 0.0 || Abs(w) == Abs(v) - cut)
  {
  }

  lemma SameSign(a: real, b: real)
    requires (a >= 0.0 && b >= 0.0) || (a <= 0.0 && b <= 0.0)
    ensures a * b >= 0.0
  {
  }

  /** The path of one braking step costs at most the energy it takes off. */
  lemma BrakeCost(a: real, b: real, decel: real, dt: real)
    requires decel > 0.0 && dt >= 0.0 && b >= 0.0 && (b == 0.0 || b == a - decel * dt)
    ensures 2.0 * decel * (b * dt) <= a * a - b * b
  {
    var cut := decel * dt;
    if b == 0.0 {
      SameSign(a, a);
    } else {
      assert 2.0 * decel * (b * dt) == 2.0 * b * cut;
      SameSign(cut, cut);
      assert cut * cut == (a - b) * (a - b) == a * a - 2.0 * b * (a - b) - b * b;
    }
  }

  lemma Squares(v: real)
    ensures v * v == Abs(v) * Abs(v)
  {
  }

  lemma SpeedBrakes(v: real, dt: real, decel: real)
    requires decel > 0.0 && dt >= 0.0
    ensures var w := Toward(v, 0.0, decel * dt); Brakes(v, w, dt, Abs(w) * dt, decel)
  {
    SameSign(decel, dt);
    TowardRest(v, decel * dt);
    var w := Toward(v, 0.0, decel * dt);
    SameSign(Abs(w), dt);
    BrakeCost(Abs(v), Abs(w), decel, dt);
    Squares(v);
    Squares(w);
  }

  lemma BrakesOn(u: real, v: real, w: real, t: real, r: real, p: real, q: real, decel: real)
    requires decel > 0.0 && t >= 0.0 && r >= 0.0 && Brakes(u, v, t, p, decel) && Brakes(v, w, r, q, decel)
    ensures Brakes(u, w, t + r, p + q, decel)
  {
    assert decel * (t + r) == decel * t + decel * r;
    assert 2.0 * decel * (p + q) == 2.0 * decel * p + 2.0 * decel * q;
    SameSign(decel, t);
    SameSign(decel, r);
  }

  /** No command is in force at any of these steps. */
  ghost predicate Lapsed(last: Option<real>, slices: seq<Slice>, l: Limits) {
    forall i :: 0 <= i < |slices| ==> !Leased(last, slices[i].at, l.deadman)
  }

  lemma UnleasedDrive(d: Drive, s: Slice, l: Limits)
    requires !Leased(d.last, s.at, l.deadman)
    ensures Driven(d, s, l) == Driving(d, Toward(d.speed, 0.0, l.decel * s.dt), s.dt)
  {
  }

  lemma DrivingBrakes(d: Drive, w: real, dt: real, decel: real)
    requires Brakes(d.speed, w, dt, Abs(w) * dt, decel)
    ensures var next := Driving(d, w, dt); Brakes(d.speed, next.speed, dt, next.path - d.path, decel)
  {
  }

  lemma StepBrakes(d: Drive, s: Slice, l: Limits)
    requires Physical(l) && s.dt >= 0.0 && !Leased(d.last, s.at, l.deadman)
    ensures var next := Driven(d, s, l);
            next.last == d.last && Brakes(d.speed, next.speed, s.dt, next.path - d.path, l.decel)
  {
    SpeedBrakes(d.speed, s.dt, l.decel);
    DrivingBrakes(d, Toward(d.speed, 0.0, l.decel * s.dt), s.dt, l.decel);
    UnleasedDrive(d, s, l);
  }

  /** Once the command lease has lapsed, over every partition of time, the base
      brakes as above. */
  lemma {:induction false} Braking(d: Drive, slices: seq<Slice>, l: Limits)
    requires Physical(l) && Steps(slices) && Lapsed(d.last, slices, l)
    ensures var end := RunDrive(d, slices, l);
            Brakes(d.speed, end.speed, Total(slices), end.path - d.path, l.decel)
    decreases |slices|
  {
    if slices != [] {
      var next, end := Driven(d, slices[0], l), RunDrive(d, slices, l);
      StepBrakes(d, slices[0], l);
      Braking(next, slices[1..], l);
      TotalPositive(slices[1..]);
      BrakesOn(d.speed, next.speed, end.speed, slices[0].dt, Total(slices[1..]),
               next.path - d.path, end.path - next.path, l.decel);
    }
  }

  lemma {:induction false} TotalPositive(slices: seq<Slice>)
    requires Steps(slices)
    ensures Total(slices) >= 0.0
  {
    if slices != [] { TotalPositive(slices[1..]); }
  }

  /** The two numbers a reader wants: rest after |v|/decel, within v^2/(2 decel). */
  ghost predicate Stops(v: real, w: real, t: real, path: real, decel: real)
    requires decel > 0.0
  {
    (t >= Abs(v) / decel ==> w == 0.0) && path <= v * v / (2.0 * decel)
  }

  lemma StopsInTimeAndDistance(d: Drive, slices: seq<Slice>, l: Limits)
    requires Physical(l) && Steps(slices) && Lapsed(d.last, slices, l)
    ensures var end := RunDrive(d, slices, l); Stops(d.speed, end.speed, Total(slices), end.path - d.path, l.decel)
  {
    Braking(d, slices, l);
    var end := RunDrive(d, slices, l);
    BrakesBounds(d.speed, end.speed, Total(slices), end.path - d.path, l.decel);
  }

  lemma BrakesBounds(v: real, w: real, t: real, path: real, decel: real)
    requires decel > 0.0 && Brakes(v, w, t, path, decel)
    ensures Stops(v, w, t, path, decel)
  {
    SameSign(w, w);
    Divide(path, v * v, 2.0 * decel);
    if t >= Abs(v) / decel { Multiply(Abs(v), t, decel); }
  }

  lemma Divide(a: real, b: real, c: real)
    requires c > 0.0 && c * a <= b
    ensures a <= b / c
  {
    assert b / c * c == b;
  }

  lemma Multiply(a: real, b: real, c: real)
    requires c > 0.0 && b >= a / c
    ensures c * b >= a
  {
    assert a / c * c == a;
    SameSign(b - a / c, c);
  }

  // ---- speed over a whole run ----

  /** What can happen to the base: a command, or a step of time. */
  datatype Event = Commanded(linear: real, angular: real, now: real) | Stepped(slice: Slice)

  function Happened(d: Drive, e: Event, l: Limits): Drive {
    match e
    case Commanded(linear, angular, now) => d.(target := linear, angular := angular, last := Some(now))
    case Stepped(s) => if 0.0 <= s.dt <= MAX_STEP then Driven(d, s, l) else d
  }

  function History(d: Drive, events: seq<Event>, l: Limits): Drive
    decreases |events|
  {
    if events == [] then d else History(Happened(d, events[0], l), events[1..], l)
  }

  /** The largest speed in play: now, targeted, or commanded later. */
  function Peak(d: Drive, events: seq<Event>): real
    decreases |events|
  {
    if events == [] then Max(Abs(d.speed), Abs(d.target))
    else if events[0].Commanded? then Max(Abs(events[0].linear), Peak(d, events[1..]))
    else Peak(d, events[1..])
  }

  lemma SpeedApproaches(v: real, target: real, dt: real, l: Limits, most: real)
    requires Physical(l) && dt >= 0.0 && Abs(v) <= most && Abs(target) <= most
    ensures Abs(NextSpeed(v, target, dt, l)) <= most
  {
    SameSign(Rate(v, target, l), dt);
    TowardStays(v, target, MostChange(v, target, dt, l), most);
  }

  lemma TowardStays(v: real, target: real, step: real, most: real)
    requires step >= 0.0 && Abs(v) <= most && Abs(target) <= most
    ensures Abs(Toward(v, target, step)) <= most
  {
  }

  /** The speed never exceeds the larger of what it was and what was commanded. */
  lemma {:induction false} SpeedNeverExceeds(d: Drive, events: seq<Event>, l: Limits, most: real)
    requires Physical(l) && Peak(d, events) <= most
    ensures Abs(History(d, events, l).speed) <= most
    decreases |events|
  {
    PeakCovers(d, events);
    if events != [] {
      var next := Happened(d, events[0], l);
      if events[0].Stepped? {
        SpeedApproaches(d.speed, d.target, Max(0.0, events[0].slice.dt), l, most);
        SpeedApproaches(d.speed, 0.0, Max(0.0, events[0].slice.dt), l, most);
      }
      PeakFrom(d, next, events[1..], most);
      SpeedNeverExceeds(next, events[1..], l, most);
    }
  }

  lemma {:induction false} PeakCovers(d: Drive, events: seq<Event>)
    ensures Abs(d.speed) <= Peak(d, events) && Abs(d.target) <= Peak(d, events)
    decreases |events|
  {
    if events != [] { PeakCovers(d, events[1..]); }
  }

  lemma {:induction false} PeakFrom(d: Drive, next: Drive, events: seq<Event>, most: real)
    requires Peak(d, events) <= most && Abs(next.speed) <= most && Abs(next.target) <= most
    ensures Peak(next, events) <= most
    decreases |events|
  {
    if events != [] { PeakFrom(d, next, events[1..], most); }
  }

  // ---- position ----

  ghost predicate Within(dx: real, dy: real, r: real) { r >= 0.0 && dx * dx + dy * dy <= r * r }

  ghost predicate Reaches(p: Place, q: Place, r: real) { Within(q.x - p.x, q.y - p.y, r) }

  /** Straight-line displacement is at most the path length. */
  lemma {:induction false} DisplacementWithinPath(p: Place, d: Drive, slices: seq<Slice>, l: Limits, heading: Heading)
    requires Unit(heading) && Steps(slices)
    ensures Reaches(p, RunPlace(p, d, slices, l, heading), RunDrive(d, slices, l).path - d.path)
    decreases |slices|
  {
    if slices != [] {
      var s := slices[0];
      var next := Driven(d, s, l);
      var q := Moved(p, next.speed, Turn(d, s, l), s.dt, heading);
      StepReaches(p, d, next.speed, Turn(d, s, l), s.dt, heading);
      DisplacementWithinPath(q, next, slices[1..], l, heading);
      ReachesOn(p, q, RunPlace(p, d, slices, l, heading), next.path - d.path, RunDrive(d, slices, l).path - next.path);
    }
  }

  lemma StepReaches(p: Place, d: Drive, v: real, turn: real, dt: real, heading: Heading)
    requires Unit(heading) && dt >= 0.0
    ensures Reaches(p, Moved(p, v, turn, dt, heading), Driving(d, v, dt).path - d.path)
  {
    var c, n := heading(p.yaw + turn).0, heading(p.yaw + turn).1;
    Scaled(v, dt, c, n);
    var q := Moved(p, v, turn, dt, heading);
    assert q.x - p.x == v * c * dt && q.y - p.y == v * n * dt;
  }

  lemma ReachesOn(a: Place, b: Place, c: Place, p: real, q: real)
    requires Reaches(a, b, p) && Reaches(b, c, q)
    ensures Reaches(a, c, p + q)
  {
    Triangle(b.x - a.x, b.y - a.y, p, c.x - b.x, c.y - b.y, q);
  }

  lemma Scaled(v: real, dt: real, c: real, n: real)
    requires dt >= 0.0 && c * c + n * n == 1.0
    ensures Within(v * c * dt, v * n * dt, Abs(v) * dt)
  {
    var k := v * dt;
    assert v * c * dt == k * c && v * n * dt == k * n;
    assert (k * c) * (k * c) + (k * n) * (k * n) == k * k * (c * c + n * n);
    assert (Abs(v) * dt) * (Abs(v) * dt) == k * k;
    SameSign(Abs(v), dt);
  }

  lemma Triangle(a: real, b: real, p: real, c: real, d: real, q: real)
    requires Within(a, b, p) && Within(c, d, q)
    ensures Within(a + c, b + d, p + q)
  {
    DotProduct(a, b, p, c, d, q);
    assert (a + c) * (a + c) + (b + d) * (b + d) == (a * a + b * b) + 2.0 * (a * c + b * d) + (c * c + d * d);
    assert (p + q) * (p + q) == p * p + 2.0 * (p * q) + q * q;
  }

  /** The inner product of two vectors is at most the product of their lengths. */
  lemma DotProduct(a: real, b: real, p: real, c: real, d: real, q: real)
    requires Within(a, b, p) && Within(c, d, q)
    ensures a * c + b * d <= p * q
  {
    var dot, cross, m, n := a * c + b * d, a * d - b * c, a * a + b * b, c * c + d * d;
    assert m * n == dot * dot + cross * cross by { Lagrange(a, b, c, d); }
    SameSign(cross, cross);
    SameSign(p, q);
    Products(m, p * p, n, q * q);
    assert (p * p) * (q * q) == (p * q) * (p * q);
    Roots(dot, p * q);
  }

  lemma Lagrange(a: real, b: real, c: real, d: real)
    ensures (a * a + b * b) * (c * c + d * d) == (a * c + b * d) * (a * c + b * d) + (a * d - b * c) * (a * d - b * c)
  {
  }

  lemma Products(m: real, p: real, n: real, q: real)
    requires 0.0 <= n <= q && m <= p && 0.0 <= p
    ensures m * n <= p * q
  {
    SameSign(p - m, n);
    SameSign(p, q - n);
  }

  lemma Roots(x: real, y: real)
    requires y >= 0.0 && x * x <= y * y
    ensures x <= y
  {
    assert (x - y) * (x + y) == x * x - y * y;
    if x > y { Positive(x - y, x + y); }
  }

  lemma Positive(a: real, b: real)
    requires a > 0.0 && b > 0.0
    ensures a * b > 0.0
  {
  }

  lemma OpposedMeansNegativeProduct(speed: real, target: real)
    ensures Opposed(speed, target) <==> speed * target < 0.0
  {
    if Opposed(speed, target) { Positive(Abs(speed), Abs(target)); }
  }

  /** After `_step` catches up on lapsed time, the base is within v^2/(2 decel) of
      where it was, and at rest if |v|/decel went by. */
  lemma CatchUpStops(p: Place, d: Drive, lastStep: real, now: real, l: Limits, heading: Heading)
    requires Physical(l) && Unit(heading) && lastStep <= now
    requires d.last.None? || lastStep >= d.last.value + l.deadman
    ensures var slices := Slices(now, now - lastStep);
            var end := RunDrive(d, slices, l);
            Stops(d.speed, end.speed, now - lastStep, end.path - d.path, l.decel)
            && Reaches(p, RunPlace(p, d, slices, l, heading), end.path - d.path)
  {
    var slices := Slices(now, now - lastStep);
    SlicesPartition(now, now - lastStep);
    StopsInTimeAndDistance(d, slices, l);
    DisplacementWithinPath(p, d, slices, l, heading);
  }
}
