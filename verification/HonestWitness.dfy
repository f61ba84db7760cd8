/** A concrete device, session and relay: HELLO, BIND, ARM, STATUS and RUN as one
    behaviour of the permit system that ends with output on. */
module HonestWitness {
  import opened Bytes
  import opened Text
  import opened Payload
  import opened Frames
  import opened Guard
  import opened GuardClock
  import opened PermitSystem
  import opened PermitSafety
  import opened HonestBehaviour
  import GuardRuns
  import Lines
  import Relay
  import H = HonestRun
  import A = Authorizer
  import Epoch

  // ---- the deployment ----

  const ZERO32: Bytes32 := ZERO16 + ZERO16
  const ZERO64: Bytes64 := ZERO16 + ZERO16 + ZERO16 + ZERO16

  /** A nonce that shows the challenge number. */
  function Mark(challenge: u32): Bytes16 { Le32(challenge) + ZERO16[..12] }

  function NonceOf(bytes: seq<byte>): Bytes16 {
    if |bytes| == PAYLOAD_SIZE then bytes[44..48] + ZERO16[..12] else ZERO16
  }

  const CRYPTO: Crypto := Crypto((b: seq<byte>) => NonceOf(b), (b: seq<byte>, t: seq<byte>) => true,
                                 (k: seq<byte>, b: seq<byte>, t: seq<byte>) => true)

  const WORLD: H.Env :=
    H.Env(Guard.Device.Device(ZERO16, ZERO32, true, CRYPTO), A.Config(Hex(ZERO16), ZERO32),
          H.Keys((b: seq<byte>) => ZERO64, (k: seq<byte>, b: seq<byte>) => ZERO32))

  lemma WorldIsSound()
    ensures WORLD.Sound()
  {
  }

  lemma MarksChallenge(g: State)
    ensures WORLD.dev.crypto.nonceOf(ChallengeBytes(WORLD.dev, g)) == Mark(g.challenge)
  {
    var c := Claim(ZERO16, g.epoch, g.generation, g.sequence, g.challenge, g.issued, 0, 2, ZERO16);
    var fields := c.Fields();
    FourthWord(fields);
    assert LedBytes(c)[44..48] == Words(fields)[12..16];
  }

  lemma FourthWord(fields: seq<u32>)
    requires |fields| == 7
    ensures Words(fields)[12..16] == Le32(fields[3])
  {
    forall j: nat | j < 4
      ensures Words(fields)[12 + j] == Le32(fields[3])[j]
    {
      WordsAt(fields, 3, j);
    }
  }

  lemma MarkInjective(a: u32, b: u32)
    requires Mark(a) == Mark(b)
    ensures a == b
  {
    assert Mark(a)[..4] == Le32(a) && Mark(b)[..4] == Le32(b);
    Le32Injective(a, b);
  }

  // ---- everything within one millisecond ----

  function Instant(n: nat): Timing { Timing(seq(n + 1, i => 0), 0, 0) }

  /** Every request so far carries the mark of a challenge below this one. */
  ghost predicate MarksBelow(s: System, bound: int) {
    (forall k :: 0 <= k < |s.grants| ==> MarkedBelow(s.grants[k].request, bound))
    && (forall p :: 0 <= p < |s.parties| ==> s.parties[p].pending.None?)
  }

  predicate MarkedBelow(m: A.Request, bound: int) {
    A.Context(m) && A.Key16(m.nonce) == Mark(m.challenge) && m.challenge < bound
  }

  lemma NewMarkIsFresh(s: System, c: u32)
    requires MarksBelow(s, c)
    ensures FreshNonce(s, Mark(c))
  {
    forall k | 0 <= k < |s.grants|
      ensures !Carries(s.grants[k].request, Mark(c))
    {
      assert MarkedBelow(s.grants[k].request, c);
      if Carries(s.grants[k].request, Mark(c)) { MarkInjective(s.grants[k].request.challenge, c); }
    }
  }

  predicate AtZero(g: State) { g.issued == 0 && (g.armed ==> g.leaseIssued == 0) && g.nonce == Mark(g.challenge) }

  /** System and honest parties stand together at time zero. */
  ghost predicate Stands(s: System, w: H.Trio) {
    Tracks(s, w, 0) && |s.parties| == 1 && H.InStep(WORLD, w) && AtZero(w.g) && MarksBelow(s, w.g.challenge)
    && s.now == 0 && s.c.last == 0 && s.c.boot == 0
  }

  lemma InstantIsPrompt(s: System, line: string)
    requires s.now == 0 && s.c.last == 0 && s.c.boot == 0 && line != ""
    requires s.c.g.armed ==> s.c.g.leaseIssued == 0 && 0 < s.c.g.duration
    ensures H.Prompt(s.c.g, line, DeliveryOf(0, Instant(|line|))) && Orderly(s.c, 0, Instant(|line|), |line|)
  {
  }

  // ---- one permit ----

  function KeyOf(): Bytes32 { ZERO32 }

  /** The guard's reply in one chunk. */
  function Told(g: State): seq<string> { [Relay.ReplyText(WORLD.dev, g) + "\n"] }

  lemma ToldReplies(g: State)
    ensures H.Replies(WORLD, g, Told(g))
  {
    Lines.OneChunk(Relay.ReplyText(WORLD.dev, g));
  }

  function FrameOf(w: H.Trio): Frame
    requires H.Approved(WORLD, w, KeyOf())
  {
    H.NextFrame(WORLD, w, KeyOf())
  }

  /** The guard after the next frame. */
  function GuardOf(w: H.Trio): State
    requires H.Approved(WORLD, w, KeyOf())
  {
    GuardRuns.RunAll(WORLD.dev, w.g, H.Line(Print(FrameOf(w)), DeliveryOf(0, Instant(|Print(FrameOf(w))|))))
  }

  ghost function Given(w: H.Trio): H.Trio
    requires H.Approved(WORLD, w, KeyOf())
  {
    H.Permitted(WORLD, w, KeyOf(), DeliveryOf(0, Instant(|Print(FrameOf(w))|)), Told(GuardOf(w)))
  }

  lemma Approves(s: System, w: H.Trio)
    requires Stands(s, w) && w.g.sequence < 9 && w.g.challenge < 9
    ensures H.Approved(WORLD, w, KeyOf())
    ensures var f := FrameOf(w);
            H.TimelyFrame(w.g, f, DeliveryOf(0, Instant(|Print(f)|)))
            && Orderly(s.c, 0, Instant(|Print(f)|), |Print(f)|)
  {
    WorldIsSound();
    H.RequestIsApproved(WORLD, w, KeyOf());
    NotEmpty(FrameOf(w));
    InstantIsPrompt(s, Print(FrameOf(w)));
  }

  /** The frame is typed, and the reply to it read, within the instant. */
  lemma FrameIsTimely(w: H.Trio, d: H.Delivery)
    requires H.Approved(WORLD, w, KeyOf()) && d == DeliveryOf(0, Instant(|Print(FrameOf(w))|))
             && H.TimelyFrame(w.g, FrameOf(w), d)
    ensures H.TimelyPermitRound(WORLD, w, KeyOf(), d, Told(GuardOf(w)))
  {
    ToldReplies(GuardOf(w));
  }

  lemma NotEmpty(f: Frame)
    ensures Print(f) != ""
  {
    JoinLength(PrintFields(f));
  }

  /** The granted state is again at time zero, with a marked nonce. */
  lemma GivenAtZero(s: System, w: H.Trio)
    requires Stands(s, w) && w.g.sequence < 9 && w.g.challenge < 9 && H.Approved(WORLD, w, KeyOf())
    ensures var v := Given(w);
            H.InStep(WORLD, v) && AtZero(v.g) && v.g.sequence == w.g.sequence + 1 && v.g.challenge == w.g.challenge + 1
            && !v.g.canBind && v.g.canArm == w.g.canBind && v.g.on == w.g.armed
  {
    Approves(s, w);
    WorldIsSound();
    var f := FrameOf(w);
    var d := DeliveryOf(0, Instant(|Print(f)|));
    FrameIsTimely(w, d);
    H.PermitInStep(WORLD, w, KeyOf(), d, Told(GuardOf(w)));
    H.GuardTakesFrame(WORLD, w, KeyOf(), d);
    MarksChallenge(Given(w).g);
  }

  lemma InstantPermit(s: System, w: H.Trio) returns (x: Trail, end: System, v: H.Trio)
    requires Stands(s, w) && w.g.sequence < 9 && w.g.challenge < 9 && (w.g.canBind ==> s.grants == [])
    ensures Leads(SystemOf(WORLD), s, x, end) && Stands(end, v) && |end.accepts| == |s.accepts| + 1
    ensures v.g.sequence == w.g.sequence + 1 && v.g.challenge == w.g.challenge + 1
    ensures !v.g.canBind && v.g.canArm == w.g.canBind && v.g.on == w.g.armed
  {
    WorldIsSound();
    Approves(s, w);
    GivenAtZero(s, w);
    v := Given(w);
    var mid := Answered(WORLD, s, w, 0, KeyOf(), 0, 0);
    AnswerMarks(s, w);
    NewMarkIsFresh(mid, v.g.challenge);
    FrameIsTimely(w, DeliveryOf(0, Instant(|Print(FrameOf(w))|)));
    x, end := RoundLeads(WORLD, s, w, 0, KeyOf(), 0, 0, Instant(|Print(FrameOf(w))|), Told(GuardOf(w)));
  }

  lemma AnswerMarks(s: System, w: H.Trio)
    requires Stands(s, w) && H.Approved(WORLD, w, KeyOf())
    ensures MarksBelow(Answered(WORLD, s, w, 0, KeyOf(), 0, 0), w.g.challenge + 1)
  {
    var mid := Answered(WORLD, s, w, 0, KeyOf(), 0, 0);
    RequestIsMarked(w);
    ApprovalAdds(SystemOf(WORLD), s, 0, H.Ask(w), KeyOf(), 0, 0);
    MarksExtend(s.grants, mid.grants, w.g.challenge);
  }

  lemma RequestIsMarked(w: H.Trio)
    requires H.InStep(WORLD, w) && AtZero(w.g) && A.Context(H.Ask(w))
    ensures MarkedBelow(H.Ask(w), w.g.challenge + 1)
  {
    HexShape(w.g.nonce);
  }

  lemma MarksExtend(old_: seq<Signed>, new_: seq<Signed>, bound: int)
    requires |new_| == |old_| + 1 && new_[..|old_|] == old_ && MarkedBelow(new_[|old_|].request, bound + 1)
    requires forall k :: 0 <= k < |old_| ==> MarkedBelow(old_[k].request, bound)
    ensures forall k :: 0 <= k < |new_| ==> MarkedBelow(new_[k].request, bound + 1)
  {
    forall k | 0 <= k < |new_|
      ensures MarkedBelow(new_[k].request, bound + 1)
    {
      if k < |old_| { assert new_[k] == new_[..|old_|][k]; }
    }
  }

  // ---- HELLO and STATUS ----

  /** A word typed within the instant leads to a marked challenge at time zero. */
  lemma InstantWord(s: System, word: string, w: H.Trio) returns (x: Trail, end: System)
    requires s.now == 0 && s.c.last == 0 && s.c.boot == 0 && H.Idle(s.c.g) && AsksAnew(s.c.g, word)
    requires s.c.g.armed ==> s.c.g.leaseIssued == 0 && 0 < s.c.g.duration
    requires w.g == GuardAfter(WORLD.dev, s, word, Instant(|word|)) && H.InStep(WORLD, w)
    requires |s.parties| == 1 && Waits(s, 0, w.a) && MarksBelow(s, w.g.challenge)
    ensures Leads(SystemOf(WORLD), s, x, end) && Stands(end, w)
    ensures end.grants == s.grants && end.accepts == s.accepts
  {
    var tm := Instant(|word|);
    WordIsTypable(s, word);
    WordGuard(WORLD.dev, s, word, tm);
    MarksChallenge(w.g);
    NewMarkIsFresh(s, w.g.challenge);
    x := WordLeads(SystemOf(WORLD), s, word, tm);
    end := Asked(SystemOf(WORLD), s, word, tm);
  }

  lemma WordIsTypable(s: System, word: string)
    requires s.now == 0 && s.c.last == 0 && s.c.boot == 0 && H.Idle(s.c.g) && word in {"H2 HELLO", "H2 STATUS"}
    requires s.c.g.armed ==> s.c.g.leaseIssued == 0 && 0 < s.c.g.duration
    ensures Typable(s, word, Instant(|word|))
  {
    InstantIsPrompt(s, word);
    assert Plain("H2 HELLO") && Plain("H2 STATUS");
  }

  /** Freshly booted, with an epoch. */
  predicate Powered(s: System) {
    s.now == 0 && s.c.last == 0 && s.c.boot == 0 && H.Idle(s.c.g) && s.c.g.ready && s.c.g.epoch != 0
    && s.c.g.generation == 0 && !s.c.g.armed
  }

  lemma InstantHello(s: System) returns (x: Trail, end: System, w: H.Trio)
    requires Powered(s) && s.grants == [] && |s.parties| == 1 && Waits(s, 0, A.FRESH)
    ensures Leads(SystemOf(WORLD), s, x, end) && Stands(end, w) && w.g.canBind && w.g.sequence == 0
            && w.g.challenge == 1
    ensures end.grants == [] && end.accepts == s.accepts
  {
    var word;
    w, word := HelloStands(s);
    NothingMarked(s, A.FRESH, 1);
    x, end := InstantWord(s, word, w);
  }

  lemma NothingMarked(s: System, a: A.State, bound: int)
    requires s.grants == [] && |s.parties| == 1 && Waits(s, 0, a)
    ensures MarksBelow(s, bound)
  {
  }

  lemma HelloStands(s: System) returns (w: H.Trio, word: string)
    requires Powered(s)
    ensures H.InStep(WORLD, w) && w.a == A.FRESH && AsksAnew(s.c.g, word)
    ensures w.g == GuardAfter(WORLD.dev, s, word, Instant(|word|))
    ensures w.g.canBind && w.g.sequence == 0 && w.g.challenge == 1
  {
    InstantIsPrompt(s, "H2 HELLO");
    var d := DeliveryOf(0, Instant(8));
    var g := GuardRuns.RunAll(WORLD.dev, s.c.g, H.Line("H2 HELLO", d));
    ToldReplies(g);
    word, w := "H2 HELLO", H.Greeted(WORLD, s.c.g, d, Told(g));
    H.HelloInStep(WORLD, s.c.g, d, Told(g));
    H.HelloGuard(WORLD.dev, s.c.g, d);
  }

  lemma InstantStatus(s: System, w: H.Trio) returns (x: Trail, end: System, v: H.Trio)
    requires Stands(s, w) && w.g.challenge < 9
    ensures Leads(SystemOf(WORLD), s, x, end) && Stands(end, v) && end.accepts == s.accepts && end.grants == s.grants
    ensures H.SameButChallenge(w.g, v.g)
  {
    var word;
    v, word := StatusStands(s, w);
    MarksStillBelow(s, w.g.challenge);
    x, end := InstantWord(s, word, v);
  }

  lemma MarksStillBelow(s: System, bound: int)
    requires MarksBelow(s, bound)
    ensures MarksBelow(s, bound + 1)
  {
    forall k | 0 <= k < |s.grants|
      ensures MarkedBelow(s.grants[k].request, bound + 1)
    {
      assert MarkedBelow(s.grants[k].request, bound);
    }
  }

  lemma StatusStands(s: System, w: H.Trio) returns (v: H.Trio, word: string)
    requires Stands(s, w) && w.g.challenge < 9
    ensures H.InStep(WORLD, v) && v.a == w.a && AsksAnew(s.c.g, word)
    ensures v.g == GuardAfter(WORLD.dev, s, word, Instant(|word|))
    ensures H.SameButChallenge(w.g, v.g)
  {
    InstantIsPrompt(s, "H2 STATUS");
    var d := DeliveryOf(0, Instant(9));
    var g := GuardRuns.RunAll(WORLD.dev, w.g, H.Line("H2 STATUS", d));
    ToldReplies(g);
    word, v := "H2 STATUS", H.Refreshed(WORLD, w, d, Told(g));
    H.StatusInStep(WORLD, w, d, Told(g));
  }

  // ---- the whole run ----

  const BEGINNING: System :=
    System(0, [Epoch.Blank], Clocked(Booted(WORLD.dev, 0), 0, 0, 0, 0), map[], [], [], [])

  const BOOTED: System := BEGINNING.(flash := [Epoch.Word(0)], c := Clocked(Booted(WORLD.dev, 1), 0, 0, 0, 0))

  lemma FirstBoot()
    ensures SystemStep(SystemOf(WORLD), BEGINNING, Step.Reboot(0, [Epoch.Word(0)], 1), BOOTED)
  {
    assert Epoch.BootStep([Epoch.Blank], [Epoch.Word(0)], 1);
  }

  lemma BootedIsPowered()
    ensures Powered(BOOTED) && BOOTED.grants == [] && BOOTED.accepts == [] && BOOTED.parties == []
  {
  }

  lemma Boots() returns (x: Trail, end: System)
    ensures Leads(SystemOf(WORLD), BEGINNING, x, end)
    ensures Powered(end) && end.grants == [] && end.accepts == [] && end.parties == []
  {
    FirstBoot();
    BootedIsPowered();
    x, end := Trail([BEGINNING, BOOTED], [Step.Reboot(0, [Epoch.Word(0)], 1)]), BOOTED;
    OneStep(SystemOf(WORLD), BEGINNING, Step.Reboot(0, [Epoch.Word(0)], 1), BOOTED);
  }

  /** Power-on with the first epoch, and an operator session. */
  lemma PowerOn() returns (x: Trail, end: System)
    ensures Leads(SystemOf(WORLD), BEGINNING, x, end)
    ensures Powered(end) && end.grants == [] && end.accepts == []
    ensures |end.parties| == 1 && Waits(end, 0, A.FRESH)
  {
    var booted, y;
    x, booted := Boots();
    y, end := Starts(SystemOf(WORLD), booted);
    x := Further(x, booted, y, end);
  }

  lemma Starts(env: Env, s: System) returns (x: Trail, end: System)
    ensures end == s.(parties := s.parties + [Party(A.FRESH, None, None, 0)]) && Leads(env, s, x, end)
  {
    end := s.(parties := s.parties + [Party(A.FRESH, None, None, 0)]);
    x := Trail([s, end], [Step.Start]);
    OneStep(env, s, Step.Start, end);
  }

  /** A trail from the beginning, extended. */
  lemma Further(x: Trail, s: System, y: Trail, end: System) returns (z: Trail)
    requires Leads(SystemOf(WORLD), BEGINNING, x, s) && Leads(SystemOf(WORLD), s, y, end)
    ensures Leads(SystemOf(WORLD), BEGINNING, z, end)
  {
    LeadsOn(SystemOf(WORLD), BEGINNING, x, s, y, end);
    z := Joined(x, y);
  }

  lemma UpToBind() returns (x: Trail, end: System, w: H.Trio)
    ensures Leads(SystemOf(WORLD), BEGINNING, x, end) && Stands(end, w) && |end.accepts| == 1
    ensures w.g.sequence == 1 && w.g.challenge == 2 && w.g.canArm && !w.g.canBind
  {
    var s0;
    x, s0 := PowerOn();
    var y, s1, w1 := InstantHello(s0);
    x := Further(x, s0, y, s1);
    y, end, w := InstantPermit(s1, w1);
    x := Further(x, s1, y, end);
  }

  lemma UpToRun() returns (x: Trail, end: System)
    ensures Leads(SystemOf(WORLD), BEGINNING, x, end) && end.c.g.on && |end.accepts| == 3
  {
    var s2, w2;
    x, s2, w2 := UpToBind();
    var y, s3, w3 := InstantPermit(s2, w2);
    x := Further(x, s2, y, s3);
    var s4, w4, w5;
    y, s4, w4 := InstantStatus(s3, w3);
    x := Further(x, s3, y, s4);
    y, end, w5 := InstantPermit(s4, w4);
    x := Further(x, s4, y, end);
  }

  /** There is a behaviour in which BIND, ARM and RUN are accepted and output is on:
      the safety theorems are not about locked devices alone. */
  lemma SomeBehaviourIsOn() returns (states: seq<System>, steps: seq<Step>)
    ensures Behaviour(SystemOf(WORLD), states, steps)
    ensures states[|steps|].c.g.on && |states[|steps|].accepts| == 3
  {
    var x, end := UpToRun();
    states, steps := x.states, x.steps;
    forall i | 0 <= i < |steps|
      ensures SystemStep(SystemOf(WORLD), states[i], steps[i], states[i + 1])
    {
      assert StepAt(SystemOf(WORLD), x, i);
    }
  }
}
