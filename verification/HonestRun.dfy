/** The honest case: the concrete relay between a sound authorizer and the guard.
    With prompt delivery the three stay in lockstep, round after round. */
module HonestRun {
  import opened Bytes
  import opened Text
  import opened Payload
  import opened Frames
  import opened Guard
  import opened GuardRuns
  import opened Lines
  import opened Relay
  import A = Authorizer

  /** The authorizer's two signing primitives. */
  datatype Keys = Keys(sign: seq<byte> -> Bytes64, mac: (seq<byte>, seq<byte>) -> Bytes32)

  datatype Env = Env(dev: Device, config: A.Config, keys: Keys)
  {
    /** One deployment: the controller accepts what the authorizer signs. */
    ghost predicate Sound() {
      && config.install == Hex(dev.install) && config.controller == dev.controller
      && (forall b: seq<byte> :: dev.crypto.bindOk(b, keys.sign(b)))
      && (forall k: seq<byte>, b: seq<byte> :: dev.crypto.macOk(k, b, keys.mac(k, b)))
    }
  }

  /** The clock readings with which the bytes of one line, and its line feed,
      reach the guard, and the readings around verification. */
  datatype Delivery = Delivery(nows: seq<u32>, clock: Readings)

  function Typed(line: string, d: Delivery): seq<Event>
    requires |line| <= |d.nows|
    decreases |line|
  {
    if line == "" then [] else
    Typed(line[..|line| - 1], d) + [Byte(line[|line| - 1], d.nows[|line| - 1], d.clock)]
  }

  function Line(line: string, d: Delivery): seq<Event>
    requires |d.nows| == |line| + 1
  {
    Typed(line, d) + [Byte('\n', d.nows[|line|], d.clock)]
  }

  /** The line arrives within the partial-frame time and within any lease. */
  ghost predicate Prompt(g: State, line: string, d: Delivery) {
    line != "" && |d.nows| == |line| + 1
    && forall i :: 0 <= i <= |line| ==> Arrives(g, d.nows[0], d.nows[i])
  }

  predicate Arrives(g: State, first: u32, now: u32) {
    Since(now, first) < PARTIAL_MS && (g.armed ==> Since(now, g.leaseIssued) < g.duration)
  }

  predicate Idle(g: State) { g.line == "" && !g.discard }

  lemma {:induction false} TypingFillsTheLine(dev: Device, g: State, line: string, typed: string, d: Delivery)
    requires Idle(g) && Prompt(g, line, d) && Plain(line) && |line| < FRAME_SIZE && typed <= line && typed != ""
    ensures RunAll(dev, g, Typed(typed, d)) == g.(line := typed, partialStarted := d.nows[0])
    decreases |typed|
  {
    var k := |typed| - 1;
    var before, c := typed[..k], typed[k];
    assert Typed(typed, d)[..|Typed(typed, d)| - 1] == Typed(before, d);
    assert Arrives(g, d.nows[0], d.nows[k]);
    assert c == line[k];
    assert typed == before + [c];
    if k > 0 { TypingFillsTheLine(dev, g, line, before, d); }
    TypeOne(dev, RunAll(dev, g, Typed(before, d)), c, d.nows[k], d.nows[0], d.clock);
  }

  lemma TypeOne(dev: Device, h: State, c: char, now: u32, first: u32, clock: Readings)
    requires !h.discard && Arrives(h, first, now) && ' ' <= c <= '~' && |h.line| < FRAME_SIZE - 1
    requires if h.line == "" then now == first else h.partialStarted == first
    ensures Feed(dev, h, c, now, clock) == h.(line := h.line + [c], partialStarted := first)
  {
    assert Tick(h, now) == h;
  }

  /** A prompt line is executed as one command. */
  lemma LineIsExecuted(dev: Device, g: State, line: string, d: Delivery)
    requires Idle(g) && Prompt(g, line, d) && Plain(line) && |line| < FRAME_SIZE
    ensures RunAll(dev, g, Line(line, d))
            == Command(dev, g.(partialStarted := d.nows[0]), line, d.nows[|line|], d.clock)
  {
    TypingFillsTheLine(dev, g, line, line, d);
    assert Line(line, d)[..|Line(line, d)| - 1] == Typed(line, d);
    assert Arrives(g, d.nows[0], d.nows[|line|]);
    FeedExecutes(dev, g, line, d.nows[0], d.nows[|line|], d.clock);
  }

  lemma FeedExecutes(dev: Device, g: State, line: string, first: u32, now: u32, clock: Readings)
    requires Idle(g) && Arrives(g, first, now)
    ensures Feed(dev, g.(line := line, partialStarted := first), '\n', now, clock)
            == Command(dev, g.(partialStarted := first), line, now, clock)
  {
    var h := g.(line := line, partialStarted := first);
    assert Tick(h, now) == h;
    assert h.(line := "") == g.(partialStarted := first);
  }

  // ---- the three parties ----

  datatype Trio = Trio(g: State, a: A.State, current: A.Request)

  /** The relay's context is the guard's, and the authorizer waits for exactly
      that number of that session, with an older challenge. */
  ghost predicate InStep(env: Env, w: Trio) {
    && Idle(w.g) && w.g.ready && Talking(w.g)
    && w.current == ContextOf(env.dev, w.g, "RUN")
    && !w.a.locked && w.a.sequence == w.g.sequence && w.a.challenge < w.g.challenge && w.a.session == w.g.session
    && if w.g.canBind then w.a == A.FRESH && !w.g.bound && !w.g.armed && !w.g.on && w.g.sequence == 0
       else w.g.bound && w.a.binding == Some((w.g.epoch as int, w.g.generation as int))
            && (w.g.canArm <==> !w.g.armed) && (w.a.armedAuthorized <==> w.g.armed) && (w.g.on ==> w.g.armed)
            && (w.g.armed ==> 0 < w.g.duration <= LEASE_MS)
  }

  /** What the relay asks for next. */
  function NextOp(g: State): string { if g.canBind then "BIND" else if g.canArm then "ARM" else "RUN" }

  /** What the relay reads in these chunks. */
  function Reads(env: Env, reply: seq<string>): Option<(A.Request, string)> {
    ReadEcho(Hex(env.dev.install), Echo(true, reply))
  }

  /** The guard's reply reaches the relay, in any chunks. */
  ghost predicate Replies(env: Env, g: State, reply: seq<string>) { Arriving(reply, ReplyText(env.dev, g)) }

  /** The relay learns the guard's context from what it reads. */
  ghost function Heard(env: Env, g: State, a: A.State, old_: A.Request, reply: seq<string>): Trio {
    Trio(g, a, if Reads(env, reply).Some? then Reads(env, reply).value.0 else old_)
  }

  lemma Hears(env: Env, g: State, a: A.State, old_: A.Request, reply: seq<string>)
    requires Replies(env, g, reply) && Talking(g)
    ensures Reads(env, reply) == Some((ContextOf(env.dev, g, "RUN"), StateText(g)))
    ensures Heard(env, g, a, old_, reply) == Trio(g, a, ContextOf(env.dev, g, "RUN"))
  {
    ReplyIsHeard(env.dev, g, reply);
  }

  ghost function Greeted(env: Env, g: State, d: Delivery, reply: seq<string>): Trio
    requires |d.nows| == |"H2 HELLO"| + 1
  {
    Heard(env, RunAll(env.dev, g, Line("H2 HELLO", d)), A.FRESH, A.Malformed, reply)
  }

  /** The guard's half of HELLO. */
  lemma HelloGuard(dev: Device, g: State, d: Delivery)
    requires Idle(g) && g.ready && g.generation != MAX32 && Prompt(g, "H2 HELLO", d)
    ensures var h := RunAll(dev, g, Line("H2 HELLO", d));
            Idle(h) && h.ready && h.ok && h.canBind && !h.bound && !h.armed && !h.on && h.session == []
            && h.epoch == g.epoch && h.generation == g.generation + 1 && h.sequence == 0 && h.challenge == 1
  {
    assert Plain("H2 HELLO");
    LineIsExecuted(dev, g, "H2 HELLO", d);
    assert "H2 HELLO" != "H2 STOP";
  }

  /** HELLO puts a ready, idle guard and a new session in step. */
  lemma HelloInStep(env: Env, g: State, d: Delivery, reply: seq<string>)
    requires Idle(g) && g.ready && g.epoch != 0 && g.generation != MAX32 && Prompt(g, "H2 HELLO", d)
    requires Replies(env, Greeted(env, g, d, reply).g, reply)
    ensures InStep(env, Greeted(env, g, d, reply)) && Greeted(env, g, d, reply).g.canBind
    ensures QueryAnswer(Reads(env, reply), None, "HELLO") == Some("LOCKED")
  {
    HelloGuard(env.dev, g, d);
    Hears(env, Greeted(env, g, d, reply).g, A.FRESH, A.Malformed, reply);
  }

  ghost function Refreshed(env: Env, w: Trio, d: Delivery, reply: seq<string>): Trio
    requires |d.nows| == |"H2 STATUS"| + 1
  {
    Heard(env, RunAll(env.dev, w.g, Line("H2 STATUS", d)), w.a, w.current, reply)
  }

  /** The guard's half of STATUS. */
  lemma StatusGuard(dev: Device, g: State, d: Delivery)
    requires Idle(g) && g.ready && g.generation != 0 && g.challenge < MAX32 && Prompt(g, "H2 STATUS", d)
    ensures var h := RunAll(dev, g, Line("H2 STATUS", d));
            Idle(h) && h.ready && h.ok && SameButChallenge(g, h) && h.issued == d.nows[9]
  {
    assert Plain("H2 STATUS") && |"H2 STATUS"| == 9;
    LineIsExecuted(dev, g, "H2 STATUS", d);
    assert "H2 STATUS" != "H2 STOP" && "H2 STATUS" != "H2 HELLO";
  }

  /** STATUS renews the challenge and nothing else. */
  lemma StatusInStep(env: Env, w: Trio, d: Delivery, reply: seq<string>)
    requires InStep(env, w) && w.g.challenge < MAX32 && Prompt(w.g, "H2 STATUS", d)
    requires Replies(env, Refreshed(env, w, d, reply).g, reply)
    ensures var v := Refreshed(env, w, d, reply);
            InStep(env, v) && SameButChallenge(w.g, v.g) && v.g.issued == d.nows[9]
            && QueryAnswer(Reads(env, reply), Some(w.current), "STATUS") == Some(StateText(w.g))
  {
    StatusGuard(env.dev, w.g, d);
    Hears(env, Refreshed(env, w, d, reply).g, w.a, w.current, reply);
  }

  predicate SameButChallenge(g: State, h: State) {
    h.epoch == g.epoch && h.generation == g.generation && h.sequence == g.sequence && h.challenge == g.challenge + 1
    && h.on == g.on && h.armed == g.armed && h.canArm == g.canArm && h.bound == g.bound && h.canBind == g.canBind
    && h.session == g.session && h.leaseIssued == g.leaseIssued && h.duration == g.duration
  }

  // ---- one permit round ----

  /** The request the relay sends. */
  function Ask(w: Trio): A.Request {
    if w.current.Request? then w.current.(op := NextOp(w.g)) else A.Malformed
  }

  /** The authorizer's tag for a permit, in the session it now has. */
  function TagFor(env: Env, a: A.State, answer: A.Answer): seq<byte>
    requires answer.Permit?
  {
    if answer.op.Bind? then env.keys.sign(answer.bytes) else env.keys.mac(a.session, answer.bytes)
  }

  /** The frame that carries an approval. */
  function FrameOf(env: Env, a: A.State, answer: A.Answer, m: A.Request, key: Bytes32): Frame
    requires answer.Permit? && A.Context(m)
  {
    FrameFor(m, TagFor(env, a, answer), if m.op == "BIND" then 0 else 200, if m.op == "BIND" then key else [])
  }

  /** The frame reaches the guard, and verification ends, within the guard's own
      limits: for a BIND only the age of its challenge counts. */
  ghost predicate TimelyFrame(g: State, f: Frame, d: Delivery) {
    Prompt(g, Print(f), d)
    && var now, after := d.nows[|Print(f)|], d.clock.after;
       var limit := if f.op.Bind? then BIND_MS else PERMIT_MS;
       Since(now, g.issued) < limit && Since(after, g.issued) < limit
       && (!f.op.Bind? ==> Since(after, d.clock.before) < PERMIT_MS)
       && (g.armed ==> Since(after, g.leaseIssued) < g.duration)
  }

  /** The authorizer approves the relay's next request, and the frame for it is
      one the guard reads as intended and has no objection to. */
  lemma RequestIsApproved(env: Env, w: Trio, key: Bytes32)
    requires env.Sound() && InStep(env, w) && w.g.sequence < MAX32 && w.g.challenge < MAX32
    ensures A.Context(Ask(w))
    ensures var (b, answer) := A.Approve(env.config, w.a, Ask(w), A.Allowed(key));
            answer.Permit? && !b.locked && b.sequence == w.g.sequence + 1 && b.challenge == w.g.challenge
            && b.binding == Some((w.g.epoch as int, w.g.generation as int))
            && (b.armedAuthorized <==> !w.g.canBind)
            && var f := FrameOf(env, b, answer, Ask(w), key);
               f.Shaped() && Current(w.g, f) && OpText(f.op) == NextOp(w.g)
               && f.duration == (if w.g.canBind then 0 else 200)
               && answer.bytes == CheckedBytes(env.dev, w.g, f)
               && b.session == (if w.g.canBind then answer.bytes else w.g.session)
  {
    AskIsAdmitted(env, w);
    var m := Ask(w);
    assert A.ClaimFor(m) == ClaimOf(env.dev, w.g, FrameFor(m, [], if m.op == "BIND" then 0 else 200, []));
  }

  /** The request names the guard's own context, and the authorizer waits for it. */
  lemma AskIsAdmitted(env: Env, w: Trio)
    requires env.Sound() && InStep(env, w) && w.g.sequence < MAX32 && w.g.challenge < MAX32
    ensures A.Context(Ask(w)) && Ask(w) == ContextOf(env.dev, w.g, NextOp(w.g))
    ensures A.Key16(Ask(w).install) == env.dev.install && A.Key16(Ask(w).nonce) == w.g.nonce
    ensures A.Admit(env.config, w.a, Ask(w)) == if w.g.canBind then A.KeyExchange else A.Gated
  {
    ContextIsValid(env.dev, w.g, NextOp(w.g));
    HexShape(env.dev.install);
    HexShape(w.g.nonce);
  }

  ghost predicate Approved(env: Env, w: Trio, key: Bytes32) {
    A.Context(Ask(w)) && A.Approve(env.config, w.a, Ask(w), A.Allowed(key)).1.Permit?
  }

  function NextFrame(env: Env, w: Trio, key: Bytes32): Frame
    requires Approved(env, w, key)
  {
    var (b, answer) := A.Approve(env.config, w.a, Ask(w), A.Allowed(key));
    FrameOf(env, b, answer, Ask(w), key)
  }

  /** The authorizer's answer as the relay decodes it. */
  function AnswerText(env: Env, w: Trio, key: Bytes32): SignedPermit
    requires Approved(env, w, key)
  {
    var (b, answer) := A.Approve(env.config, w.a, Ask(w), A.Allowed(key));
    var bind := Ask(w).op == "BIND";
    SignedPermit(true, "permit", Hex(TagFor(env, b, answer)), if bind then 0 else 200,
                 if bind then Some(Hex(key)) else None)
  }

  /** The line the relay sends for the answer is the frame that carries it. */
  lemma FrameIsSent(env: Env, w: Trio, key: Bytes32)
    requires env.Sound() && InStep(env, w) && w.g.sequence < MAX32 && w.g.challenge < MAX32 && Approved(env, w, key)
    ensures Sends(Ask(w), AnswerText(env, w, key)) == Some(Print(NextFrame(env, w, key)))
  {
    var m, permit, f := Ask(w), AnswerText(env, w, key), NextFrame(env, w, key);
    RequestIsApproved(env, w, key);
    UnhexAcceptsExactlyHex(permit.signature, if m.op == "BIND" then 64 else 32, f.tag);
    if m.op == "BIND" { UnhexAcceptsExactlyHex(permit.ephemeral.value, 32, key); }
    FrameTextIsPrint(m, permit.signature, permit.duration, permit.ephemeral, f);
  }

  /** One approval carried to the guard, and its reply carried back. */
  ghost function Permitted(env: Env, w: Trio, key: Bytes32, d: Delivery, reply: seq<string>): Trio
    requires Approved(env, w, key) && |d.nows| == |Print(NextFrame(env, w, key))| + 1
  {
    Heard(env, RunAll(env.dev, w.g, Line(Print(NextFrame(env, w, key)), d)),
          A.Approve(env.config, w.a, Ask(w), A.Allowed(key)).0, w.current, reply)
  }

  lemma PrintIsNotAWord(f: Frame)
    requires f.Shaped()
    ensures Print(f) !in {"H2 STOP", "H2 HELLO", "H2 STATUS"}
  {
    var s := Print(f);
    PrintFieldsAreSpaceFree(f);
    JoinThenSplit(PrintFields(f));
    assert |Split(s)| >= 8;
    WordsAreShort();
  }

  lemma WordsAreShort()
    ensures |Split("H2 STOP")| == 2 && |Split("H2 HELLO")| == 2 && |Split("H2 STATUS")| == 2
  {
    var a, b, c := ["H2", "STOP"], ["H2", "HELLO"], ["H2", "STATUS"];
    assert Join(a) == "H2 STOP" && Join(b) == "H2 HELLO" && Join(c) == "H2 STATUS";
    assert SpaceFree(a) && SpaceFree(b) && SpaceFree(c);
    JoinThenSplit(a);
    JoinThenSplit(b);
    JoinThenSplit(c);
  }

  /** A current, authentic, timely frame is granted. */
  lemma FrameIsGranted(dev: Device, g: State, f: Frame, d: Delivery)
    requires Idle(g) && g.ready && f.Shaped() && Current(g, f) && Authentic(dev, g, f) && TimelyFrame(g, f, d)
    requires |Print(f)| < FRAME_SIZE - 1
    requires match f.op
             case Bind => g.canBind && !g.bound && !g.armed && !g.on && f.duration == 0
             case Arm => g.bound && g.canArm && !g.armed && f.duration == 200
             case Run => g.bound && g.armed && f.duration == 200
    ensures RunAll(dev, g, Line(Print(f), d))
            == Granted(dev, Checking(dev, g.(partialStarted := d.nows[0]), f, d.clock), f, d.clock.after)
  {
    var text, h := Print(f), g.(partialStarted := d.nows[0]);
    PrintPlain(f);
    LineIsExecuted(dev, g, text, d);
    CommandIsPermit(dev, h, f, d.nows[|text|], d.clock);
    assert CheckedBytes(dev, h, f) == CheckedBytes(dev, g, f);
    TimelyPermit(dev, h, f, d.nows[|text|], d.clock);
  }

  lemma CommandIsPermit(dev: Device, h: State, f: Frame, now: u32, clock: Readings)
    requires h.ready && f.Shaped()
    ensures Command(dev, h, Print(f), now, clock) == Permit(dev, h, f, now, clock)
  {
    PrintIsNotAWord(f);
    ParsePrint(f);
  }

  lemma TimelyPermit(dev: Device, h: State, f: Frame, now: u32, clock: Readings)
    requires h.line == "" && f.Shaped() && Authentic(dev, h, f) && Objection(h, f, now).None?
    requires h.armed ==> Since(clock.after, h.leaseIssued) < h.duration
    requires InTime(Checking(dev, h, f, clock), f, clock.after)
    ensures Permit(dev, h, f, now, clock) == Granted(dev, Checking(dev, h, f, clock), f, clock.after)
  {
    assert Verifying(dev, h, f, clock) == Checking(dev, h, f, clock);
  }

  /** The guard's half of a timely round. */
  lemma GuardTakesFrame(env: Env, w: Trio, key: Bytes32, d: Delivery)
    requires env.Sound() && InStep(env, w) && w.g.sequence < MAX32 - 1 && w.g.challenge < MAX32
    requires Approved(env, w, key) && TimelyFrame(w.g, NextFrame(env, w, key), d)
    ensures var f := NextFrame(env, w, key);
            RunAll(env.dev, w.g, Line(Print(f), d))
            == Granted(env.dev, Checking(env.dev, w.g.(partialStarted := d.nows[0]), f, d.clock), f, d.clock.after)
  {
    RequestIsApproved(env, w, key);
    PrintFits(NextFrame(env, w, key));
    assert Authentic(env.dev, w.g, NextFrame(env, w, key));
    FrameIsGranted(env.dev, w.g, NextFrame(env, w, key), d);
  }

  /** A timely round: the frame and the reply to it both arrive. */
  ghost predicate TimelyPermitRound(env: Env, w: Trio, key: Bytes32, d: Delivery, reply: seq<string>) {
    Approved(env, w, key) ==>
      TimelyFrame(w.g, NextFrame(env, w, key), d) && Replies(env, Permitted(env, w, key, d, reply).g, reply)
  }

  /** Every timely BIND, ARM or RUN round is approved, accepted and acknowledged,
      and leaves the three parties in step with the next number. */
  lemma PermitInStep(env: Env, w: Trio, key: Bytes32, d: Delivery, reply: seq<string>)
    requires env.Sound() && InStep(env, w) && w.g.sequence < MAX32 - 1 && w.g.challenge < MAX32
    requires TimelyPermitRound(env, w, key, d, reply)
    ensures Approved(env, w, key) && Sends(Ask(w), AnswerText(env, w, key)) == Some(Print(NextFrame(env, w, key)))
    ensures var v := Permitted(env, w, key, d, reply);
            InStep(env, v) && v.g.sequence == w.g.sequence + 1 && v.g.challenge == w.g.challenge + 1 && !v.g.canBind
            && v.g.epoch == w.g.epoch && v.g.generation == w.g.generation
            && v.g.canArm == w.g.canBind && v.g.on == w.g.armed && Acknowledges(Reads(env, reply), Ask(w))
  {
    RequestIsApproved(env, w, key);
    FrameIsSent(env, w, key);
    GuardTakesFrame(env, w, key, d);
    var f, v := NextFrame(env, w, key), Permitted(env, w, key, d, reply);
    assert CheckedBytes(env.dev, w.g.(partialStarted := d.nows[0]), f) == CheckedBytes(env.dev, w.g, f);
    Hears(env, v.g, v.a, w.current, reply);
  }

  /** A permit round: its frame's delivery, the chunks of the reply, and the
      ephemeral key in case it is a BIND. */
  datatype Grant = Grant(frame: Delivery, reply: seq<string>, key: Bytes32)

  /** HELLO, BIND and ARM, delivered in time, arm a ready guard. */
  lemma BootstrapArms(env: Env, g: State, hello: Delivery, reply: seq<string>, bind: Grant, arm: Grant)
    requires env.Sound() && Idle(g) && g.ready && g.epoch != 0 && g.generation != MAX32 && Prompt(g, "H2 HELLO", hello)
    requires var w := Greeted(env, g, hello, reply);
             Replies(env, w.g, reply) && TimelyPermitRound(env, w, bind.key, bind.frame, bind.reply)
             && (Approved(env, w, bind.key) ==>
                   TimelyPermitRound(env, Permitted(env, w, bind.key, bind.frame, bind.reply), arm.key, arm.frame,
                                     arm.reply))
    ensures var w := Greeted(env, g, hello, reply);
            Approved(env, w, bind.key)
            && var v := Permitted(env, w, bind.key, bind.frame, bind.reply);
               Approved(env, v, arm.key)
               && var u := Permitted(env, v, arm.key, arm.frame, arm.reply);
                  InStep(env, u) && u.g.armed && u.g.sequence == 2 && u.g.challenge == 3
                  && u.g.generation == g.generation + 1
  {
    HelloInStep(env, g, hello, reply);
    var w := Greeted(env, g, hello, reply);
    HelloGuard(env.dev, g, hello);
    PermitInStep(env, w, bind.key, bind.frame, bind.reply);
    PermitInStep(env, Permitted(env, w, bind.key, bind.frame, bind.reply), arm.key, arm.frame, arm.reply);
  }

  // ---- whole sessions ----

  /** One RUN round: STATUS and its reply, then approval, frame and reply. */
  datatype Round = Round(status: Delivery, reply: seq<string>, run: Grant)

  ghost predicate TimelyRound(env: Env, w: Trio, r: Round) {
    Prompt(w.g, "H2 STATUS", r.status)
    && var v := Refreshed(env, w, r.status, r.reply);
       Replies(env, v.g, r.reply) && TimelyPermitRound(env, v, r.run.key, r.run.frame, r.run.reply)
  }

  ghost function AfterRound(env: Env, w: Trio, r: Round): Trio
    requires |r.status.nows| == |"H2 STATUS"| + 1
  {
    var v := Refreshed(env, w, r.status, r.reply);
    if Approved(env, v, r.run.key) && |r.run.frame.nows| == |Print(NextFrame(env, v, r.run.key))| + 1
    then Permitted(env, v, r.run.key, r.run.frame, r.run.reply) else v
  }

  /** A session of RUN rounds: worlds[i] is where round i starts. */
  ghost predicate Session(env: Env, worlds: seq<Trio>, rounds: seq<Round>) {
    |worlds| == |rounds| + 1
    && forall i :: 0 <= i < |rounds| ==>
         TimelyRound(env, worlds[i], rounds[i]) && worlds[i + 1] == AfterRound(env, worlds[i], rounds[i])
  }

  lemma RoundInStep(env: Env, w: Trio, r: Round)
    requires env.Sound() && InStep(env, w) && w.g.armed && w.g.sequence < MAX32 - 1 && w.g.challenge < MAX32 - 1
    requires TimelyRound(env, w, r)
    ensures var v := AfterRound(env, w, r);
            InStep(env, v) && v.g.on && v.g.armed && v.g.sequence == w.g.sequence + 1
            && v.g.challenge == w.g.challenge + 2
  {
    StatusInStep(env, w, r.status, r.reply);
    PermitInStep(env, Refreshed(env, w, r.status, r.reply), r.run.key, r.run.frame, r.run.reply);
  }

  /** An honest session runs on until a counter nears 2^32 - 1: every STATUS/RUN
      round is accepted by both ends, and each leaves the output on. */
  lemma {:induction false} HonestSessionStaysInStep(env: Env, worlds: seq<Trio>, rounds: seq<Round>, n: nat)
    requires env.Sound() && Session(env, worlds, rounds) && n <= |rounds|
    requires InStep(env, worlds[0]) && worlds[0].g.armed
    requires worlds[0].g.sequence + |rounds| < MAX32 && worlds[0].g.challenge + 2 * |rounds| < MAX32
    ensures InStep(env, worlds[n]) && worlds[n].g.armed && (n > 0 ==> worlds[n].g.on)
    ensures worlds[n].g.sequence == worlds[0].g.sequence + n && worlds[n].g.challenge == worlds[0].g.challenge + 2 * n
  {
    if n > 0 {
      HonestSessionStaysInStep(env, worlds, rounds, n - 1);
      RoundInStep(env, worlds[n - 1], rounds[n - 1]);
      assert worlds[n - 1 + 1] == AfterRound(env, worlds[n - 1], rounds[n - 1]);
    }
  }
}
