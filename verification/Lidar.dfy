/** Conservative occupancy from bay scans: which frame a snapshot uses, and what it
    reports of that frame's returns. Distances are compared as squares. */
module Lidar {
  import opened Bytes

  const HISTORY: nat := 16
  const MAX_AGE_MS: int := 200
  const MARGIN: real := 1.5
  const LOW: real := 1.0
  const HIGH: real := 10.0
  /** The cluster gap of 0.16 m, squared. */
  const GAP2: real := 0.0256

  datatype Point = Point(x: real, y: real)

  /** A decoded scan. */
  datatype Frame = Frame(stampMs: int, received: real, points: seq<Point>, healthy: bool)

  function Dist2(a: Point, b: Point): real { (a.x - b.x) * (a.x - b.x) + (a.y - b.y) * (a.y - b.y) }

  // ---- the history ----

  ghost predicate Increasing(frames: seq<Frame>) {
    forall i, j :: 0 <= i < j < |frames| ==> frames[i].stampMs < frames[j].stampMs
  }

  /** What a bounded deque keeps. */
  function Kept(frames: seq<Frame>): seq<Frame> {
    if |frames| <= HISTORY then frames else frames[|frames| - HISTORY..]
  }

  /** Frame k is the newest at or before `now` of all frames ever accepted. */
  ghost predicate NewestEligible(frames: seq<Frame>, now: int, k: nat) {
    k < |frames| && frames[k].stampMs <= now && forall i :: 0 <= i < |frames| && frames[i].stampMs <= now ==> i <= k
  }

  /** Frame k is still in the history. */
  predicate Recent(frames: seq<Frame>, k: nat) { |frames| <= k + HISTORY }

  /** The frame a snapshot looks at: the newest eligible one while it is kept;
      otherwise it may only be one from the future, or none at all. */
  ghost predicate Chosen(frames: seq<Frame>, now: int, choice: Option<Frame>) {
    (choice.None? <==> frames == [])
    && (forall k: nat :: NewestEligible(frames, now, k) && Recent(frames, k) ==> choice == Some(frames[k]))
    && (choice.Some? && choice.value.stampMs <= now ==>
          exists k: nat :: NewestEligible(frames, now, k) && Recent(frames, k) && choice.value == frames[k])
  }

  lemma TailHasNewest(frames: seq<Frame>, skipped: nat, tail: seq<Frame>, now: int, i: nat)
    requires skipped <= |frames| && tail == frames[skipped..] && i < |tail| && tail[i].stampMs <= now
    requires forall j :: i < j < |tail| ==> tail[j].stampMs > now
    ensures NewestEligible(frames, now, skipped + i) && frames[skipped + i] == tail[i]
  {
    assert forall j :: skipped + i < j < |frames| ==> frames[j] == tail[j - skipped];
  }

  lemma NewestIsChosen(frames: seq<Frame>, now: int, k: nat)
    requires NewestEligible(frames, now, k) && Recent(frames, k)
    ensures Chosen(frames, now, Some(frames[k]))
  {
  }

  lemma KeptIsRecent(frames: seq<Frame>, now: int, i: nat)
    requires i < |Kept(frames)| && Kept(frames)[i].stampMs <= now
    requires forall j :: i < j < |Kept(frames)| ==> Kept(frames)[j].stampMs > now
    ensures Chosen(frames, now, Some(Kept(frames)[i]))
  {
    var skipped := |frames| - |Kept(frames)|;
    TailHasNewest(frames, skipped, Kept(frames), now, i);
    NewestIsChosen(frames, now, skipped + i);
  }

  lemma FutureIsChosen(frames: seq<Frame>, skipped: nat, now: int)
    requires skipped <= |frames| - HISTORY || skipped == 0
    requires frames != [] && skipped < |frames| && forall j :: skipped <= j < |frames| ==> frames[j].stampMs > now
    ensures Chosen(frames, now, Some(frames[|frames| - 1]))
  {
  }

  lemma KeptAreFuture(frames: seq<Frame>, now: int)
    requires frames != [] && forall j :: 0 <= j < |Kept(frames)| ==> Kept(frames)[j].stampMs > now
    ensures Chosen(frames, now, Some(frames[|frames| - 1]))
  {
    var skipped := |frames| - |Kept(frames)|;
    forall j | skipped <= j < |frames|
      ensures frames[j].stampMs > now
    {
      assert frames[j] == Kept(frames)[j - skipped];
    }
    FutureIsChosen(frames, skipped, now);
  }

  // ---- clusters ----

  /** Consecutive returns at most one gap apart. */
  ghost predicate Chain(cluster: seq<Point>) {
    forall i :: 0 <= i < |cluster| - 1 ==> Dist2(cluster[i], cluster[i + 1]) <= GAP2
  }

  function Last(cluster: seq<Point>): Point
    requires cluster != []
  {
    cluster[|cluster| - 1]
  }

  function Joined(clusters: seq<seq<Point>>): seq<Point> {
    if clusters == [] then [] else Joined(clusters[..|clusters| - 1]) + clusters[|clusters| - 1]
  }

  /** The clusters split the returns, in order, exactly where the gap is wider. */
  ghost predicate Clustering(clusters: seq<seq<Point>>, points: seq<Point>) {
    Joined(clusters) == points
    && (forall i :: 0 <= i < |clusters| ==> clusters[i] != [] && Chain(clusters[i]))
    && (forall i :: 0 < i < |clusters| ==> Separate(clusters[i - 1], clusters[i]))
  }

  ghost predicate Separate(a: seq<Point>, b: seq<Point>) {
    a != [] && b != [] && Dist2(Last(a), b[0]) > GAP2
  }

  method Clusters(points: seq<Point>) returns (clusters: seq<seq<Point>>)
    ensures Clustering(clusters, points)
  {
    clusters := [];
    for i := 0 to |points|
      invariant Clustering(clusters, points[..i])
    {
      var point := points[i];
      assert points[..i + 1] == points[..i] + [point];
      if clusters == [] || Dist2(Last(clusters[|clusters| - 1]), point) > GAP2 {
        OpenCluster(clusters, points[..i], point);
        clusters := clusters + [[point]];
      } else {
        GrowCluster(clusters, points[..i], point);
        clusters := clusters[|clusters| - 1 := clusters[|clusters| - 1] + [point]];
      }
    }
    assert points[..|points|] == points;
  }

  lemma OpenCluster(clusters: seq<seq<Point>>, points: seq<Point>, point: Point)
    requires Clustering(clusters, points)
    requires clusters == [] || Dist2(Last(clusters[|clusters| - 1]), point) > GAP2
    ensures Clustering(clusters + [[point]], points + [point])
  {
    var next := clusters + [[point]];
    assert next[..|clusters|] == clusters;
    forall i | 0 < i < |next|
      ensures Separate(next[i - 1], next[i])
    {
      if i < |clusters| { assert Separate(clusters[i - 1], clusters[i]); }
    }
  }

  lemma GrowCluster(clusters: seq<seq<Point>>, points: seq<Point>, point: Point)
    requires Clustering(clusters, points) && clusters != []
    requires Dist2(Last(clusters[|clusters| - 1]), point) <= GAP2
    ensures Clustering(clusters[|clusters| - 1 := clusters[|clusters| - 1] + [point]], points + [point])
  {
    var n := |clusters| - 1;
    var grown := clusters[n] + [point];
    var next := clusters[n := grown];
    assert next[..n] == clusters[..n];
    assert Joined(clusters[..n]) + grown == (Joined(clusters[..n]) + clusters[n]) + [point];
    assert Chain(grown);
    forall i | 0 < i < |next|
      ensures Separate(next[i - 1], next[i])
    {
      assert Separate(clusters[i - 1], clusters[i]);
    }
  }

  /** How far a return is, as the key of a comparison. */
  type Far = Point -> real

  function From(robot: Point): Far { (p: Point) => Dist2(p, robot) }

  /** `min(cluster, key=...)`: the first nearest return. */
  function Nearest(cluster: seq<Point>, far: Far): Point
    requires cluster != []
  {
    if |cluster| == 1 then cluster[0] else
    var best := Nearest(cluster[..|cluster| - 1], far);
    if far(Last(cluster)) < far(best) then Last(cluster) else best
  }

  lemma {:induction false} NearestIsLeast(cluster: seq<Point>, far: Far)
    requires cluster != []
    ensures Nearest(cluster, far) in cluster
    ensures forall p :: p in cluster ==> far(Nearest(cluster, far)) <= far(p)
  {
    if |cluster| > 1 {
      var rest := cluster[..|cluster| - 1];
      NearestIsLeast(rest, far);
      assert cluster == rest + [Last(cluster)];
    }
  }

  /** Each reported human is the nearest return of its cluster. */
  method Humans(clusters: seq<seq<Point>>, far: Far) returns (humans: seq<Point>)
    requires forall i :: 0 <= i < |clusters| ==> clusters[i] != []
    ensures |humans| == |clusters| && forall i :: 0 <= i < |clusters| ==> humans[i] == Nearest(clusters[i], far)
  {
    humans := [];
    for i := 0 to |clusters|
      invariant |humans| == i && forall j :: 0 <= j < i ==> humans[j] == Nearest(clusters[j], far)
    {
      humans := humans + [Nearest(clusters[i], far)];
    }
  }

  /** Nothing is lost: every return has a human at most as far away, and every
      human is a return. */
  ghost predicate Conservative(humans: seq<Point>, points: seq<Point>, far: Far) {
    (forall p :: p in points ==> Covered(humans, far, p)) && (forall h :: h in humans ==> h in points)
  }

  ghost predicate Covered(humans: seq<Point>, far: Far, p: Point) { exists h :: h in humans && far(h) <= far(p) }

  lemma {:induction false} JoinedCovers(clusters: seq<seq<Point>>, p: Point) returns (c: nat)
    requires p in Joined(clusters)
    ensures c < |clusters| && p in clusters[c]
  {
    c := |clusters| - 1;
    if p !in clusters[c] { c := JoinedCovers(clusters[..c], p); }
  }

  lemma {:induction false} ClusterIn(clusters: seq<seq<Point>>, c: nat, p: Point)
    requires c < |clusters| && p in clusters[c]
    ensures p in Joined(clusters)
  {
    if c < |clusters| - 1 { ClusterIn(clusters[..|clusters| - 1], c, p); }
  }

  lemma HumansConservative(clusters: seq<seq<Point>>, points: seq<Point>, humans: seq<Point>, far: Far)
    requires Clustering(clusters, points) && |humans| == |clusters|
    requires forall i :: 0 <= i < |clusters| ==> humans[i] == Nearest(clusters[i], far)
    ensures Conservative(humans, points, far)
  {
    forall p | p in points
      ensures Covered(humans, far, p)
    {
      var c := JoinedCovers(clusters, p);
      NearestIsLeast(clusters[c], far);
      assert humans[c] in humans;
    }
    forall h | h in humans
      ensures h in points
    {
      var c :| 0 <= c < |humans| && humans[c] == h;
      NearestIsLeast(clusters[c], far);
      ClusterIn(clusters, c, h);
    }
  }

  /** So the nearest human is exactly as far as the nearest return. */
  lemma NearestHumanIsNearestReturn(humans: seq<Point>, points: seq<Point>, far: Far)
    requires Conservative(humans, points, far)
    ensures humans == [] <==> points == []
    ensures points != [] ==> far(Nearest(humans, far)) == far(Nearest(points, far))
  {
    if humans != [] {
      assert humans[0] in points;
      NearestIsLeast(humans, far);
      NearestIsLeast(points, far);
    }
    if points != [] {
      NearestIsLeast(points, far);
      assert Covered(humans, far, Nearest(points, far));
    }
  }

  // ---- the perception ----

  predicate InBay(robot: Point) {
    LOW + MARGIN <= robot.x <= HIGH - MARGIN && LOW + MARGIN <= robot.y <= HIGH - MARGIN
  }

  /** A frame's own health, and its age on both clocks. */
  predicate Fresh(f: Frame, nowMs: int, clock: real) {
    f.healthy && 0 <= nowMs - f.stampMs < MAX_AGE_MS && 0.0 <= clock - f.received < MAX_AGE_MS as real / 1000.0
  }

  class Perception {
    var frame: Option<Frame>
    var history: seq<Frame>
    var dropFrames: bool
    var frames: nat
    ghost var accepted: seq<Frame>

    ghost predicate Valid()
      reads this
    {
      Increasing(accepted) && history == Kept(accepted) && frames == |accepted|
      && frame == if accepted == [] then None else Some(accepted[|accepted| - 1])
    }

    constructor ()
      ensures Valid() && accepted == [] && !dropFrames
    {
      frame, history, dropFrames, frames, accepted := None, [], false, 0, [];
    }

    /** `receive`: replayed and out-of-order scans refresh nothing. */
    method Receive(scan: Frame)
      requires Valid()
      modifies this`frame, this`history, this`frames, this`accepted
      ensures Valid()
      ensures accepted == (if dropFrames
                           || (old(accepted) != [] && scan.stampMs <= old(accepted)[|old(accepted)| - 1].stampMs)
                           then old(accepted) else old(accepted) + [scan])
    {
      if dropFrames { return; }
      if frame.Some? && scan.stampMs <= frame.value.stampMs { return; }
      frame := Some(scan);
      history := if |history| < HISTORY then history + [scan] else history[1..] + [scan];
      frames := frames + 1;
      accepted := accepted + [scan];
    }

    /** The generator over `reversed(history)`, with its default. */
    method Choose(nowMs: int) returns (choice: Option<Frame>)
      requires Valid()
      ensures Chosen(accepted, nowMs, choice)
    {
      var i := |history|;
      while i > 0
        invariant 0 <= i <= |history|
        invariant forall j :: i <= j < |history| ==> history[j].stampMs > nowMs
      {
        i := i - 1;
        if history[i].stampMs <= nowMs {
          KeptIsRecent(accepted, nowMs, i);
          return Some(history[i]);
        }
      }
      if accepted != [] { KeptAreFuture(accepted, nowMs); }
      return frame;
    }

    /** `snapshot`: the frame it looked at, what it reports, and whether it is
        confident; a confident report loses no return. */
    method Snapshot(nowMs: int, robot: Point, clock: real)
      returns (used: Option<Frame>, humans: seq<Point>, healthy: bool)
      requires Valid()
      ensures Chosen(accepted, nowMs, used)
      ensures healthy <==> InBay(robot) && used.Some? && Fresh(used.value, nowMs, clock)
      ensures if healthy then Conservative(humans, used.value.points, From(robot)) else humans == []
    {
      used := Choose(nowMs);
      healthy := used.Some? && Fresh(used.value, nowMs, clock);
      var points := if healthy then used.value.points else [];
      if !InBay(robot) { healthy, points := false, []; }
      var clusters := Clusters(points);
      humans := Humans(clusters, From(robot));
      HumansConservative(clusters, points, humans, From(robot));
    }
  }

  /** A healthy look at the world is a look at the newest eligible frame of all
      ever accepted, although only some are kept. */
  lemma HealthyUsesNewest(frames: seq<Frame>, nowMs: int, clock: real, used: Option<Frame>) returns (k: nat)
    requires Increasing(frames) && Chosen(frames, nowMs, used) && used.Some? && Fresh(used.value, nowMs, clock)
    ensures NewestEligible(frames, nowMs, k) && used.value == frames[k]
    ensures forall f :: f in frames && f.stampMs <= nowMs ==> f.stampMs <= used.value.stampMs
  {
    k :| NewestEligible(frames, nowMs, k) && used.value == frames[k];
    forall f | f in frames && f.stampMs <= nowMs
      ensures f.stampMs <= used.value.stampMs
    {
      var i :| 0 <= i < |frames| && frames[i] == f;
      assert i <= k;
    }
  }
}
