/** The streaming judge of the engine log, and the record order it decides. */
module CoverageCut {
  import opened Bytes

  /** The JSON scalars that the judge can tell apart. Missing keys read as Null. */
  datatype Json = Null | Bool(b: bool) | Int(n: int) | Real(r: real) | Str(s: string) | Other

  /** Python's `value == 0`: false and 0.0 are equal to zero too. */
  predicate IsZero(j: Json) { j == Int(0) || j == Bool(false) || j == Real(0.0) }

  datatype Record = Record(ts: int, kind: Json, error: Json, verdict: Json, confidence: Json, reason: Json, stamp: Json)

  /** A log line: not a JSON object with an integer ts_ms and an object payload,
      or a record. */
  datatype Line = Malformed | Row(row: Record)

  predicate UnknownWorld(r: Record) { r.kind == Str("world") && IsZero(r.confidence) }

  predicate IsDecision(r: Record, verdict: string) { r.kind == Str("decision") && r.verdict == Str(verdict) }

  /** A record that leaves authority as it was. */
  predicate Benign(r: Record) {
    r.kind != Str("reject") && r.kind != Str("revoke") && !IsDecision(r, "bul") && !UnknownWorld(r)
    && (r.kind == Str("stop") ==> r.reason in {Str("Expired"), Str("NoCommand")})
  }

  predicate NamedReject(r: Record, error: string) { r.kind == Str("reject") && r.error == Str(error) }

  predicate DeniedStop(r: Record) { r.kind == Str("stop") && r.reason == Str("Denied") }

  /** A record that neither allows anything nor reports an unknown world. */
  predicate Calm(r: Record) { !IsDecision(r, "yun") && !UnknownWorld(r) }

  predicate Counts(line: Line, since: int) { line.Row? && line.row.kind != Str("seal") && line.row.ts >= since }

  /** The engine records of the fault window, in order. */
  function Window(lines: seq<Line>, since: int): seq<Record> {
    if lines == [] then [] else
    var n := |lines| - 1;
    Window(lines[..n], since) + (if Counts(lines[n], since) then [lines[n].row] else [])
  }

  /** Benign records, the named reject, its Denied stop at the same time, a calm
      stretch, and then the given unknown world, not before the reject. */
  ghost predicate CutAt(rows: seq<Record>, error: string, stamp: int, i: nat, j: nat) {
    i + 1 < j < |rows|
    && (forall k :: 0 <= k < i ==> Benign(rows[k]))
    && NamedReject(rows[i], error)
    && DeniedStop(rows[i + 1]) && rows[i + 1].ts == rows[i].ts
    && (forall k :: i + 2 <= k < j ==> Calm(rows[k]))
    && UnknownWorld(rows[j]) && rows[j].stamp == Int(stamp) && rows[j].ts >= rows[i].ts
  }

  ghost predicate WellFormed(lines: seq<Line>) { forall k :: 0 <= k < |lines| ==> lines[k].Row? }

  ghost predicate CutRecorded(lines: seq<Line>, since: int, error: string, stamp: int) {
    WellFormed(lines) && exists i: nat, j: nat :: CutAt(Window(lines, since), error, stamp, i, j)
  }

  // ---- the judge ----

  /** How far the judge has come: nothing yet, the reject at record `at`, its
      stop too, or everything. */
  ghost predicate Progress(rows: seq<Record>, error: string, stamp: int, cut: Option<int>, denied: bool, complete: bool,
                           i: nat, j: nat)
  {
    if complete then CutAt(rows, error, stamp, i, j)
    else if cut.None? then !denied && forall k :: 0 <= k < |rows| ==> Benign(rows[k])
    else
      i < |rows| && (forall k :: 0 <= k < i ==> Benign(rows[k])) && NamedReject(rows[i], error)
      && rows[i].ts == cut.value
      && if !denied then |rows| == i + 1
         else i + 1 < |rows| && DeniedStop(rows[i + 1]) && rows[i + 1].ts == cut.value
              && forall k :: i + 2 <= k < |rows| ==> Calm(rows[k])
  }

  /** A prefix that has already gone wrong at its last record. */
  ghost predicate DeadEnd(rows: seq<Record>, error: string, stamp: int, cut: Option<int>, denied: bool, i: nat,
                          r: Record) {
    Progress(rows, error, stamp, cut, denied, false, i, 0)
    && if cut.None? then !Benign(r) && !NamedReject(r, error)
       else if !denied then !(DeniedStop(r) && r.ts == cut.value)
       else !Calm(r) && !(UnknownWorld(r) && r.stamp == Int(stamp) && r.ts >= cut.value)
  }

  lemma {:induction false} WindowPrefix(lines: seq<Line>, since: int, n: nat)
    requires n <= |lines|
    ensures Window(lines[..n], since) <= Window(lines, since)
  {
    if n == |lines| {
      assert lines[..n] == lines;
    } else {
      var m := |lines| - 1;
      WindowPrefix(lines[..m], since, n);
      assert lines[..m][..n] == lines[..n];
    }
  }

  /** No continuation of a dead end decomposes. */
  lemma DeadEndStaysDead(rows: seq<Record>, all: seq<Record>, error: string, stamp: int, cut: Option<int>, denied: bool,
                         i: nat, r: Record, a: nat, b: nat)
    requires DeadEnd(rows, error, stamp, cut, denied, i, r) && rows + [r] <= all
    ensures !CutAt(all, error, stamp, a, b)
  {
    var n := |rows|;
    assert forall k :: 0 <= k < n ==> all[k] == rows[k];
    assert all[n] == r;
    if CutAt(all, error, stamp, a, b) {
      if cut.None? {
        FirstLoss(all, error, stamp, a, b, n);
      } else {
        FirstLoss(all, error, stamp, a, b, i);
      }
    }
  }

  /** The reject of a decomposition is the first record that is not benign. */
  lemma FirstLoss(all: seq<Record>, error: string, stamp: int, a: nat, b: nat, n: nat)
    requires CutAt(all, error, stamp, a, b) && n < |all| && !Benign(all[n]) && forall k :: 0 <= k < n ==> Benign(all[k])
    ensures a == n
  {
    assert !Benign(all[a]);
  }

  lemma CutExtends(rows: seq<Record>, all: seq<Record>, error: string, stamp: int, i: nat, j: nat)
    requires CutAt(rows, error, stamp, i, j) && rows <= all
    ensures CutAt(all, error, stamp, i, j)
  {
  }

  lemma BenignAdvances(rows: seq<Record>, r: Record, error: string, stamp: int, i: nat)
    requires Progress(rows, error, stamp, None, false, false, i, 0) && Benign(r)
    ensures Progress(rows + [r], error, stamp, None, false, false, i, 0)
  {
  }

  lemma RejectAdvances(rows: seq<Record>, r: Record, error: string, stamp: int, i: nat)
    requires Progress(rows, error, stamp, None, false, false, i, 0) && NamedReject(r, error) && i == |rows|
    ensures Progress(rows + [r], error, stamp, Some(r.ts), false, false, i, 0)
  {
  }

  lemma StopAdvances(rows: seq<Record>, r: Record, error: string, stamp: int, cut: int, i: nat)
    requires Progress(rows, error, stamp, Some(cut), false, false, i, 0) && DeniedStop(r) && r.ts == cut
    ensures Progress(rows + [r], error, stamp, Some(cut), true, false, i, 0)
  {
  }

  lemma CalmAdvances(rows: seq<Record>, r: Record, error: string, stamp: int, cut: int, i: nat)
    requires Progress(rows, error, stamp, Some(cut), true, false, i, 0) && Calm(r)
    ensures Progress(rows + [r], error, stamp, Some(cut), true, false, i, 0)
  {
  }

  lemma WorldAdvances(rows: seq<Record>, r: Record, error: string, stamp: int, cut: int, i: nat)
    requires Progress(rows, error, stamp, Some(cut), true, false, i, 0)
    requires UnknownWorld(r) && r.stamp == Int(stamp) && r.ts >= cut
    ensures Progress(rows + [r], error, stamp, Some(cut), true, true, i, |rows|)
  {
  }

  /** The judge's state: the time of the cut, its stop seen, and all seen. */
  datatype Judge = Judge(cut: Option<int>, denied: bool, complete: bool)

  /** One record inside the window: the judge moves on, or the log has failed. */
  method TakeRecord(was: Judge, r: Record, error: string, stamp: int, ghost rows: seq<Record>, ghost i: nat,
                    ghost j: nat)
    returns (ok: bool, now: Judge, ghost i2: nat, ghost j2: nat)
    requires Progress(rows, error, stamp, was.cut, was.denied, was.complete, i, j)
    ensures ok ==> Progress(rows + [r], error, stamp, now.cut, now.denied, now.complete, i2, j2)
    ensures !ok ==> DeadEnd(rows, error, stamp, was.cut, was.denied, i, r)
  {
    now, i2, j2, ok := was, i, j, true;
    if was.complete {
      CutExtends(rows, rows + [r], error, stamp, i, j);
    } else if was.cut.None? {
      if r.kind == Str("reject") {
        if r.error != Str(error) { return false, was, i, j; }
        i2 := |rows|;
        RejectAdvances(rows, r, error, stamp, i2);
        now := was.(cut := Some(r.ts));
      } else {
        if !Benign(r) { return false, was, i, j; }
        BenignAdvances(rows, r, error, stamp, i);
      }
    } else if !was.denied {
      if !DeniedStop(r) || r.ts != was.cut.value { return false, was, i, j; }
      StopAdvances(rows, r, error, stamp, was.cut.value, i);
      now := was.(denied := true);
    } else if IsDecision(r, "yun") {
      return false, was, i, j;
    } else if UnknownWorld(r) {
      if r.stamp != Int(stamp) || r.ts < was.cut.value { return false, was, i, j; }
      j2 := |rows|;
      WorldAdvances(rows, r, error, stamp, was.cut.value, i);
      now := was.(complete := true);
    } else {
      CalmAdvances(rows, r, error, stamp, was.cut.value, i);
    }
  }

  /** `coverage_cut_record`: one pass over the log, true exactly when the log is
      well formed and the window decomposes as required. */
  method CoverageCutRecord(lines: seq<Line>, since: Option<int>, error: string, stamp: int) returns (result: bool)
    ensures since.None? ==> !result
    ensures since.Some? ==> (result <==> CutRecorded(lines, since.value, error, stamp))
  {
    if since.None? { return false; }
    var from, judge := since.value, Judge(None, false, false);
    ghost var i: nat, j: nat := 0, 0;
    for n := 0 to |lines|
      invariant WellFormed(lines[..n])
      invariant Progress(Window(lines[..n], from), error, stamp, judge.cut, judge.denied, judge.complete, i, j)
    {
      if lines[n].Malformed? { return false; }
      var r := lines[n].row;
      ghost var rows := Window(lines[..n], from);
      WindowStep(lines, from, n);
      if r.kind == Str("seal") || r.ts < from { continue; }
      var was, ok := judge, true;
      ghost var i2, j2 := i, j;
      ok, judge, i2, j2 := TakeRecord(was, r, error, stamp, rows, i, j);
      if !ok {
        Refuted(lines, from, error, stamp, rows, was.cut, was.denied, i, r);
        return false;
      }
      i, j := i2, j2;
    }
    assert lines[..|lines|] == lines;
    if !judge.complete { Unfinished(lines, from, error, stamp, judge.cut, judge.denied, i, j); }
    return judge.complete;
  }

  lemma WindowStep(lines: seq<Line>, from: int, n: nat)
    requires n < |lines| && WellFormed(lines[..n]) && lines[n].Row?
    ensures WellFormed(lines[..n + 1]) && Window(lines[..n + 1], from) <= Window(lines, from)
    ensures Window(lines[..n + 1], from) == Window(lines[..n], from)
                                            + (if lines[n].row.kind == Str("seal") || lines[n].row.ts < from
                                               then [] else [lines[n].row])
  {
    assert lines[..n + 1][..n] == lines[..n];
    WindowPrefix(lines, from, n + 1);
  }

  lemma Refuted(lines: seq<Line>, since: int, error: string, stamp: int, rows: seq<Record>, cut: Option<int>,
                denied: bool, i: nat, r: Record)
    requires DeadEnd(rows, error, stamp, cut, denied, i, r) && rows + [r] <= Window(lines, since)
    ensures !CutRecorded(lines, since, error, stamp)
  {
    forall a: nat, b: nat
      ensures !CutAt(Window(lines, since), error, stamp, a, b)
    {
      DeadEndStaysDead(rows, Window(lines, since), error, stamp, cut, denied, i, r, a, b);
    }
  }

  lemma Unfinished(lines: seq<Line>, since: int, error: string, stamp: int, cut: Option<int>, denied: bool, i: nat,
                   j: nat)
    requires Progress(Window(lines, since), error, stamp, cut, denied, false, i, j)
    ensures !CutRecorded(lines, since, error, stamp)
  {
    var rows := Window(lines, since);
    forall a: nat, b: nat
      ensures !CutAt(rows, error, stamp, a, b)
    {
      if CutAt(rows, error, stamp, a, b) {
        if cut.Some? { FirstLoss(rows, error, stamp, a, b, i); }
      }
    }
  }
}
