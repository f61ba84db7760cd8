/** Honest sessions are behaviours of the permit system: every byte, request and
    answer of a timely round is an enabled step, so the safety theorems are about
    runs in which permits are granted and output is on. */
module HonestBehaviour {
  import opened Bytes
  import opened Text
  import opened Payload
  import opened Frames
  import opened Guard
  import opened GuardClock
  import opened PermitSystem
  import opened PermitSafety
  import GuardRuns
  import Relay
  import H = HonestRun
  import A = Authorizer
  import Epoch

  // ---- trails ----

  /** Steps, and the states between them. */
  datatype Trail = Trail(states: seq<System>, steps: seq<Step>)

  ghost predicate StepAt(env: Env, x: Trail, i: nat)
    requires |x.states| == |x.steps| + 1 && i < |x.steps|
  {
    SystemStep(env, x.states[i], x.steps[i], x.states[i + 1])
  }

  /** The trail leads from one system state to the other. */
  ghost predicate Leads(env: Env, s: System, x: Trail, end: System) {
    |x.states| == |x.steps| + 1 && x.states[0] == s && x.states[|x.steps|] == end
    && forall i :: 0 <= i < |x.steps| ==> StepAt(env, x, i)
  }

  lemma NoStep(env: Env, s: System)
    ensures Leads(env, s, Trail([s], []), s)
  {
  }

  lemma OneStep(env: Env, s: System, step: Step, end: System)
    requires SystemStep(env, s, step, end)
    ensures Leads(env, s, Trail([s, end], [step]), end)
  {
  }

  function Joined(x: Trail, y: Trail): Trail
    requires y.states != []
  {
    Trail(x.states + y.states[1..], x.steps + y.steps)
  }

  lemma LeadsOn(env: Env, a: System, x: Trail, b: System, y: Trail, c: System)
    requires Leads(env, a, x, b) && Leads(env, b, y, c)
    ensures Leads(env, a, Joined(x, y), c)
  {
    var z, n := Joined(x, y), |x.steps|;
    assert forall i :: 0 <= i < |y.states| ==> z.states[n + i] == y.states[i];
    forall i | 0 <= i < |z.steps|
      ensures StepAt(env, z, i)
    {
      if i < n {
        assert StepAt(env, x, i);
      } else {
        assert StepAt(env, y, i - n);
        assert z.states[n + (i - n)] == y.states[i - n] && z.states[n + (i - n + 1)] == y.states[i - n + 1];
      }
    }
  }

  // ---- a line ----

  /** True times: of each byte and the line feed, and around verification. */
  datatype Timing = Timing(ts: seq<int>, before: int, after: int)

  function DeliveryOf(boot: int, tm: Timing): H.Delivery {
    H.Delivery(seq(|tm.ts|, i => Dev(boot, if 0 <= i < |tm.ts| then tm.ts[i] else boot)),
               Readings(Dev(boot, tm.before), Dev(boot, tm.after)))
  }

  /** Times in order from `now` on, and near the controller's latest reading. */
  ghost predicate Orderly(c: Clocked, now: int, tm: Timing, n: nat) {
    |tm.ts| == n + 1 && now <= tm.ts[0] && c.last <= now && tm.ts[n] <= tm.before <= tm.after && Near(c.last, tm.after)
    && forall i, j :: 0 <= i <= j <= n ==> tm.ts[i] <= tm.ts[j]
  }

  /** The system after part of a line has been typed. */
  function Typing(s: System, typed: string, tm: Timing): System
    requires |typed| <= |tm.ts|
  {
    if typed == "" then s else
    var t := tm.ts[|typed| - 1];
    s.(now := t, c := s.c.(g := s.c.g.(line := typed, partialStarted := Dev(s.c.boot, tm.ts[0])), last := t))
  }

  lemma TypeStep(env: Env, s: System, ch: char, t: int, first: u32)
    requires !s.c.g.discard && ' ' <= ch <= '~' && |s.c.g.line| < FRAME_SIZE - 1 && s.now <= t && Near(s.c.last, t)
    requires H.Arrives(s.c.g, first, Dev(s.c.boot, t))
    requires if s.c.g.line == "" then Dev(s.c.boot, t) == first else s.c.g.partialStarted == first
    ensures var step := Step.Device(Byte(ch, t, t, t), 0);
            Enabled(env, s, step)
            && Next(env, s, step)
               == s.(now := t, c := s.c.(g := s.c.g.(line := s.c.g.line + [ch], partialStarted := first), last := t))
  {
    assert Tick(s.c.g, Dev(s.c.boot, t)) == s.c.g;
    assert ch != '\n';
  }

  lemma {:induction false} TypingLeads(env: Env, s: System, line: string, typed: string, tm: Timing) returns (x: Trail)
    requires H.Idle(s.c.g) && H.Prompt(s.c.g, line, DeliveryOf(s.c.boot, tm)) && Plain(line) && |line| < FRAME_SIZE
    requires Orderly(s.c, s.now, tm, |line|) && typed <= line
    ensures Leads(env, s, x, Typing(s, typed, tm))
    decreases |typed|
  {
    if typed == "" {
      x := Trail([s], []);
      NoStep(env, s);
    } else {
      var k := |typed| - 1;
      x := TypingLeads(env, s, line, typed[..k], tm);
      var y := TypeNext(env, s, line, typed[..k], tm);
      assert typed == typed[..k] + [line[k]];
      LeadsOn(env, s, x, Typing(s, typed[..k], tm), y, Typing(s, typed, tm));
      x := Joined(x, y);
    }
  }

  lemma TypeNext(env: Env, s: System, line: string, typed: string, tm: Timing) returns (x: Trail)
    requires H.Idle(s.c.g) && H.Prompt(s.c.g, line, DeliveryOf(s.c.boot, tm)) && Plain(line) && |line| < FRAME_SIZE
    requires Orderly(s.c, s.now, tm, |line|) && typed < line
    ensures Leads(env, Typing(s, typed, tm), x, Typing(s, typed + [line[|typed|]], tm))
  {
    var k, d := |typed|, DeliveryOf(s.c.boot, tm);
    assert H.Arrives(s.c.g, d.nows[0], d.nows[k]);
    var mid, end := Typing(s, typed, tm), Typing(s, typed + [line[k]], tm);
    var step := Step.Device(Byte(line[k], tm.ts[k], tm.ts[k], tm.ts[k]), 0);
    TypeStep(env, mid, line[k], tm.ts[k], Dev(s.c.boot, tm.ts[0]));
    x := Trail([mid, end], [step]);
    OneStep(env, mid, step, end);
  }

  // ---- the line feed ----

  function LineFeed(tm: Timing): Arrival
    requires tm.ts != []
  {
    Byte('\n', tm.ts[|tm.ts| - 1], tm.before, tm.after)
  }

  /** The line can be typed promptly and in order. */
  ghost predicate Typable(s: System, line: string, tm: Timing) {
    H.Idle(s.c.g) && H.Prompt(s.c.g, line, DeliveryOf(s.c.boot, tm)) && Plain(line) && |line| < FRAME_SIZE
    && Orderly(s.c, s.now, tm, |line|)
  }

  /** The guard after the whole line. */
  function GuardAfter(dev: Device, s: System, line: string, tm: Timing): State
    requires |tm.ts| == |line| + 1
  {
    GuardRuns.RunAll(dev, s.c.g, H.Line(line, DeliveryOf(s.c.boot, tm)))
  }

  lemma FeedExecutes(dev: Device, s: System, line: string, tm: Timing)
    requires Typable(s, line, tm)
    ensures var c, e := Typing(s, line, tm).c, LineFeed(tm);
            Polled(c, e.t).g == c.g
            && Take(dev, c.g, '\n', Dev(c.boot, e.t), ClockOf(c, e)) == GuardAfter(dev, s, line, tm)
            && Admissible(c, e) && Typing(s, line, tm).now <= e.t
  {
    var n, d, c := |line|, DeliveryOf(s.c.boot, tm), Typing(s, line, tm).c;
    H.LineIsExecuted(dev, s.c.g, line, d);
    assert H.Arrives(s.c.g, d.nows[0], d.nows[n]);
    assert Tick(c.g, d.nows[n]) == c.g;
    assert c.g.(line := "") == s.c.g.(partialStarted := d.nows[0]);
  }

  /** The system after HELLO or STATUS: a new challenge, issued at the line feed. */
  function Asked(env: Env, s: System, word: string, tm: Timing): System
    requires |tm.ts| == |word| + 1
  {
    var t, g := tm.ts[|word|], GuardAfter(env.dev, s, word, tm);
    s.(now := t, c := s.c.(g := g, last := t, issuedAt := t), issues := s.issues[CtxOf(g) := Issued(t, |s.grants|)])
  }

  predicate AsksAnew(g: State, word: string) {
    g.ready && ((word == "H2 HELLO" && g.generation != MAX32)
                || (word == "H2 STATUS" && g.generation != 0 && g.challenge != MAX32))
  }

  lemma WordFeeds(env: Env, s: System, word: string, tm: Timing)
    requires Typable(s, word, tm) && AsksAnew(s.c.g, word) && FreshNonce(s, GuardAfter(env.dev, s, word, tm).nonce)
    ensures SystemStep(env, Typing(s, word, tm), Step.Device(LineFeed(tm), 0), Asked(env, s, word, tm))
  {
    FeedExecutes(env.dev, s, word, tm);
    var typed, e := Typing(s, word, tm), LineFeed(tm);
    assert Completed(typed.c.g, '\n').None?;
    assert EffectAt(env.dev, typed.c, e) == if word == "H2 HELLO" then Greets else Effect.Challenges;
    assert Fed(env.dev, typed.c, e).g == GuardAfter(env.dev, s, word, tm);
    assert FreshNonce(typed, GuardAfter(env.dev, s, word, tm).nonce);
  }

  /** The guard after HELLO or STATUS: a challenge issued at the line feed. */
  lemma WordGuard(dev: Device, s: System, word: string, tm: Timing)
    requires Typable(s, word, tm) && AsksAnew(s.c.g, word)
    ensures var g, h := s.c.g, GuardAfter(dev, s, word, tm);
            h.issued == Dev(s.c.boot, tm.ts[|word|]) && h.nonce == dev.crypto.nonceOf(ChallengeBytes(dev, h))
            && h.leaseIssued == g.leaseIssued && (h.armed ==> g.armed)
  {
    FeedExecutes(dev, s, word, tm);
    assert "H2 STATUS" != "H2 STOP" && "H2 STATUS" != "H2 HELLO" && "H2 HELLO" != "H2 STOP";
  }

  lemma WordLeads(env: Env, s: System, word: string, tm: Timing) returns (x: Trail)
    requires Typable(s, word, tm) && AsksAnew(s.c.g, word) && FreshNonce(s, GuardAfter(env.dev, s, word, tm).nonce)
    ensures Leads(env, s, x, Asked(env, s, word, tm))
  {
    x := TypingLeads(env, s, word, word, tm);
    WordFeeds(env, s, word, tm);
    var typed, end, step := Typing(s, word, tm), Asked(env, s, word, tm), Step.Device(LineFeed(tm), 0);
    OneStep(env, typed, step, end);
    LeadsOn(env, s, x, typed, Trail([typed, end], [step]), end);
    x := Joined(x, Trail([typed, end], [step]));
  }

  // ---- an approval ----

  ghost predicate Waits(s: System, p: nat, a: A.State) {
    p < |s.parties| && s.parties[p].state == a && s.parties[p].pending.None? && s.parties[p].lockedAt.None?
  }

  /** The system after a request at time t and its granted answer at time u. */
  function Approved(env: Env, s: System, p: nat, m: A.Request, key: Bytes32, t: int, u: int): System
    requires p < |s.parties| && A.Context(m) && A.Approve(env.config, s.parties[p].state, m, A.Allowed(key)).1.Permit?
  {
    var (b, answer) := A.Approve(env.config, s.parties[p].state, m, A.Allowed(key));
    var bind := if A.Admit(env.config, s.parties[p].state, m).KeyExchange? then |s.grants| else s.parties[p].bind;
    s.(now := u, parties := s.parties[p := s.parties[p].(state := b, pending := None, bind := bind)],
       grants := s.grants + [Signed(p, answer.op, m, b.session, answer.bytes, key, t, u)])
  }

  /** An approval adds one grant, for this request, and leaves nothing pending. */
  lemma ApprovalAdds(env: Env, s: System, p: nat, m: A.Request, key: Bytes32, t: int, u: int)
    requires p < |s.parties| && A.Context(m) && A.Approve(env.config, s.parties[p].state, m, A.Allowed(key)).1.Permit?
    ensures var after := Approved(env, s, p, m, key, t, u);
            |after.grants| == |s.grants| + 1 && after.grants[..|s.grants|] == s.grants
            && after.grants[|s.grants|].request == m
            && |after.parties| == |s.parties| && after.parties[p].pending.None?
            && forall q :: 0 <= q < |s.parties| && q != p ==> after.parties[q] == s.parties[q]
  {
  }

  lemma ApprovalLeads(env: Env, s: System, p: nat, m: A.Request, key: Bytes32, t: int, u: int) returns (x: Trail)
    requires p < |s.parties| && s.parties[p].pending.None? && s.now <= t <= u && A.Context(m)
    requires A.Approve(env.config, s.parties[p].state, m, A.Allowed(key)).1.Permit?
    requires m.op == "BIND" ==> FreshEphemeral(s, key)
    ensures Leads(env, s, x, Approved(env, s, p, m, key, t, u))
  {
    var begin, finish := Step.Begin(p, m, t), Step.Finish(p, A.Allowed(key), u);
    var mid, end := AfterBegin(env, s, p, m, t), Approved(env, s, p, m, key, t, u);
    assert mid.parties[p].pending == Some(Pending(m, A.Admit(env.config, s.parties[p].state, m), t));
    assert mid.parties[p := end.parties[p]] == end.parties;
    assert AfterFinish(env, mid, p, A.Allowed(key), u) == end;
    OneStep(env, s, begin, mid);
    OneStep(env, mid, finish, end);
    LeadsOn(env, s, Trail([s, mid], [begin]), mid, Trail([mid, end], [finish]), end);
    x := Joined(Trail([s, mid], [begin]), Trail([mid, end], [finish]));
  }

  // ---- a permit line ----

  /** The system after a frame was accepted: a new challenge, and one more acceptance. */
  ghost function Accepting(env: Env, s: System, f: Frame, tm: Timing, k: nat): System
    requires |tm.ts| == |Print(f)| + 1
  {
    var g, p := GuardAfter(env.dev, s, Print(f), tm), Polled(Typing(s, Print(f), tm).c, tm.ts[|Print(f)|]);
    s.(now := tm.after, c := s.c.(g := g, last := tm.after, issuedAt := tm.after,
                                  leaseAt := LeaseStart(p, f, tm.after)),
       issues := s.issues[CtxOf(g) := Issued(tm.after, |s.grants|)],
       accepts := s.accepts + [AcceptedBy(env.dev, p, f, tm.after, k)])
  }

  /** A line that moves the sequence number on was granted. */
  lemma FrameGrants(env: Env, s: System, f: Frame, tm: Timing)
    requires Typable(s, Print(f), tm) && f.Shaped()
    requires GuardAfter(env.dev, s, Print(f), tm).sequence != s.c.g.sequence
    ensures var c, e := Typing(s, Print(f), tm).c, LineFeed(tm);
            Completed(c.g, '\n') == Some(f) && EffectAt(env.dev, c, e) == Grants(f)
            && Fed(env.dev, c, e).g == GuardAfter(env.dev, s, Print(f), tm)
  {
    var c, e := Typing(s, Print(f), tm).c, LineFeed(tm);
    FeedExecutes(env.dev, s, Print(f), tm);
    ParsePrint(f);
    H.PrintIsNotAWord(f);
    TakeCases(env.dev, c.g, '\n', Dev(c.boot, e.t), ClockOf(c, e));
  }

  lemma FrameFeeds(env: Env, s: System, f: Frame, tm: Timing, k: nat)
    requires Typable(s, Print(f), tm) && f.Shaped()
    requires GuardAfter(env.dev, s, Print(f), tm).sequence != s.c.g.sequence
    requires FreshNonce(s, GuardAfter(env.dev, s, Print(f), tm).nonce)
    requires Backed(s.grants, k, f.op, s.c.g.session, CheckedBytes(env.dev, s.c.g, f))
    ensures SystemStep(env, Typing(s, Print(f), tm), Step.Device(LineFeed(tm), k), Accepting(env, s, f, tm, k))
  {
    FeedExecutes(env.dev, s, Print(f), tm);
    FrameGrants(env, s, f, tm);
    FrameIsEnabled(env, s, f, tm, k);
    var typed, e := Typing(s, Print(f), tm), LineFeed(tm);
    assert AfterDevice(env, typed, e, k) == Accepting(env, s, f, tm, k);
  }

  lemma FrameIsEnabled(env: Env, s: System, f: Frame, tm: Timing, k: nat)
    requires Typable(s, Print(f), tm) && f.Shaped() && FreshNonce(s, GuardAfter(env.dev, s, Print(f), tm).nonce)
    requires GuardAfter(env.dev, s, Print(f), tm).sequence != s.c.g.sequence
    requires Backed(s.grants, k, f.op, s.c.g.session, CheckedBytes(env.dev, s.c.g, f))
    ensures Enabled(env, Typing(s, Print(f), tm), Step.Device(LineFeed(tm), k))
  {
    FeedExecutes(env.dev, s, Print(f), tm);
    FrameGrants(env, s, f, tm);
    var typed := Typing(s, Print(f), tm);
    assert CheckedBytes(env.dev, typed.c.g.(line := ""), f) == CheckedBytes(env.dev, s.c.g, f);
    assert FreshNonce(typed, GuardAfter(env.dev, s, Print(f), tm).nonce);
  }

  lemma FrameLeads(env: Env, s: System, f: Frame, tm: Timing, k: nat) returns (x: Trail)
    requires Typable(s, Print(f), tm) && f.Shaped()
    requires GuardAfter(env.dev, s, Print(f), tm).sequence != s.c.g.sequence
    requires FreshNonce(s, GuardAfter(env.dev, s, Print(f), tm).nonce)
    requires Backed(s.grants, k, f.op, s.c.g.session, CheckedBytes(env.dev, s.c.g, f))
    ensures Leads(env, s, x, Accepting(env, s, f, tm, k))
  {
    x := TypingLeads(env, s, Print(f), Print(f), tm);
    FrameFeeds(env, s, f, tm, k);
    var typed, end, step := Typing(s, Print(f), tm), Accepting(env, s, f, tm, k), Step.Device(LineFeed(tm), k);
    OneStep(env, typed, step, end);
    LeadsOn(env, s, x, typed, Trail([typed, end], [step]), end);
    x := Joined(x, Trail([typed, end], [step]));
  }

  // ---- rounds of an honest session ----

  function SystemOf(env: H.Env): Env { Env(env.dev, env.config) }

  /** The system is where the three parties of an honest session are. */
  ghost predicate Tracks(s: System, w: H.Trio, p: nat) { s.c.g == w.g && Waits(s, p, w.a) }

  /** The system after the approval of the session's next request. */
  ghost function Answered(env: H.Env, s: System, w: H.Trio, p: nat, key: Bytes32, t: int, u: int): System
    requires H.Approved(env, w, key) && Tracks(s, w, p)
  {
    Approved(SystemOf(env), s, p, H.Ask(w), key, t, u)
  }

  /** A timely BIND, ARM or RUN round of an honest session is a behaviour: request,
      answer after any gate cycle, and frame are enabled steps, and the frame is
      accepted. */
  lemma RoundLeads(env: H.Env, s: System, w: H.Trio, p: nat, key: Bytes32, t: int, u: int, tm: Timing,
                   reply: seq<string>)
    returns (x: Trail, end: System)
    requires env.Sound() && H.InStep(env, w) && w.g.sequence < MAX32 - 1 && w.g.challenge < MAX32
    requires Tracks(s, w, p) && s.now <= t <= u && s.c.last <= t
    requires H.Approved(env, w, key) && (w.g.canBind ==> FreshEphemeral(s, key))
    requires var f, d := H.NextFrame(env, w, key), DeliveryOf(s.c.boot, tm);
             H.TimelyPermitRound(env, w, key, d, reply) && Orderly(s.c, u, tm, |Print(f)|)
             && FreshNonce(Answered(env, s, w, p, key, t, u), H.Permitted(env, w, key, d, reply).g.nonce)
    ensures Leads(SystemOf(env), s, x, end)
    ensures Tracks(end, H.Permitted(env, w, key, DeliveryOf(s.c.boot, tm), reply), p) && end.c.boot == s.c.boot
    ensures end.now == end.c.last == tm.after && end.grants == Answered(env, s, w, p, key, t, u).grants
    ensures |end.accepts| == |s.accepts| + 1 && end.parties == Answered(env, s, w, p, key, t, u).parties
  {
    var f, d, mid := H.NextFrame(env, w, key), DeliveryOf(s.c.boot, tm), Answered(env, s, w, p, key, t, u);
    x := ApprovalLeads(SystemOf(env), s, p, H.Ask(w), key, t, u);
    AnswerBacks(env, s, w, p, key, t, u);
    H.PermitInStep(env, w, key, d, reply);
    FrameIsTypable(env, w, key, mid, tm);
    var y := FrameLeads(SystemOf(env), mid, f, tm, |s.grants|);
    end := Accepting(SystemOf(env), mid, f, tm, |s.grants|);
    LeadsOn(SystemOf(env), s, x, mid, y, end);
    x := Joined(x, y);
  }

  lemma AnswerBacks(env: H.Env, s: System, w: H.Trio, p: nat, key: Bytes32, t: int, u: int)
    requires env.Sound() && H.InStep(env, w) && w.g.sequence < MAX32 - 1 && w.g.challenge < MAX32
    requires Tracks(s, w, p) && H.Approved(env, w, key)
    ensures var f, mid := H.NextFrame(env, w, key), Answered(env, s, w, p, key, t, u);
            f.Shaped() && Backed(mid.grants, |s.grants|, f.op, w.g.session, CheckedBytes(env.dev, w.g, f))
            && (H.Ask(w).op == "BIND" <==> w.g.canBind)
  {
    H.RequestIsApproved(env, w, key);
  }

  lemma FrameIsTypable(env: H.Env, w: H.Trio, key: Bytes32, s: System, tm: Timing)
    requires env.Sound() && H.InStep(env, w) && w.g.sequence < MAX32 - 1 && w.g.challenge < MAX32
             && H.Approved(env, w, key)
    requires s.c.g == w.g && H.TimelyFrame(w.g, H.NextFrame(env, w, key), DeliveryOf(s.c.boot, tm))
    requires Orderly(s.c, s.now, tm, |Print(H.NextFrame(env, w, key))|)
    ensures Typable(s, Print(H.NextFrame(env, w, key)), tm)
  {
    H.RequestIsApproved(env, w, key);
    PrintFits(H.NextFrame(env, w, key));
    PrintPlain(H.NextFrame(env, w, key));
  }
}
