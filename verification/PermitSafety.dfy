/** Safety of the permit system over every interleaving. */
module PermitSafety {
  import opened Bytes
  import opened Text
  import opened Payload
  import opened Frames
  import opened Guard
  import opened GuardRuns
  import opened GuardClock
  import opened PermitSystem
  import A = Authorizer
  import Epoch

  // ---- every step keeps the invariant ----

  /** A reading at t, when the system as a whole may already be at a later time. */
  lemma PollKeepsInv(env: Env, s: System, t: int, now: int)
    requires Inv(env, s) && s.now <= now && t <= now && Near(s.c.last, t)
    ensures Inv(env, s.(now := now, c := Polled(s.c, t)))
  {
    PollKeepsTime(s.c, t);
    TickCases(s.c.g, Dev(s.c.boot, t));
    GuardOnlyKeepsInv(env, s, now, Polled(s.c, t));
  }

  lemma HelloAdvances(dev: Device, p: Clocked, q: Clocked, t: int)
    requires HelloStep(dev, p.g.(line := ""), q.g, Dev(p.boot, t))
    ensures Advances(dev, p, q) && !q.g.bound && !q.g.on
  {
  }

  lemma StatusAdvances(dev: Device, p: Clocked, q: Clocked, t: int)
    requires StatusStep(dev, p.g.(line := ""), q.g, Dev(p.boot, t)) && q.leaseAt == p.leaseAt
    ensures Advances(dev, p, q) && q.g.bound == p.g.bound && q.g.session == p.g.session
    ensures q.g.generation == p.g.generation && q.g.on == p.g.on
  {
  }

  lemma EffectKeepsInv(env: Env, s: System, e: Arrival, k: nat, q: Clocked, effect: Effect)
    requires Inv(env, s) && e.Byte? && s.c.last == e.t <= s.now <= e.after && Near(e.t, e.after)
    requires ByteStep(env.dev, s.c, q, e, effect)
    requires effect.Nothing? ==> s.now <= q.last
    requires effect.Greets? || effect.Challenges? ==> s.now == e.t
    requires effect.Grants? ==> effect.frame.Shaped() && Backed(s.grants, k, effect.frame.op, s.c.g.session,
                                                                CheckedBytes(env.dev, s.c.g, effect.frame))
    requires !effect.Nothing? ==> FreshNonce(s, q.g.nonce)
    ensures Inv(env, WithEffect(env.dev, s, e, k, s.c, q, effect))
  {
    ByteStepKeepsTime(env.dev, s.c, q, e, effect);
    match effect {
      case Nothing => GuardOnlyKeepsInv(env, s, q.last, q);
      case Greets =>
        HelloAdvances(env.dev, s.c, q, e.t);
        ChallengeKeepsInv(env, s, q, e.t);
      case Challenges =>
        StatusAdvances(env.dev, s.c, q, e.t);
        ChallengeKeepsInv(env, s, q, e.t);
      case Grants(f) => AcceptKeepsInv(env, s, e, k, q, f);
    }
  }

  lemma GrantedFrameIsBacked(env: Env, s: System, e: Arrival, k: nat)
    requires e.Byte? && Unforged(env, s, e, k) && EffectAt(env.dev, s.c, e).Grants?
    ensures var f, g := EffectAt(env.dev, s.c, e).frame, Polled(s.c, e.t).g;
            f.Shaped() && Backed(s.grants, k, f.op, g.session, CheckedBytes(env.dev, g, f))
  {
    var f, g := EffectAt(env.dev, s.c, e).frame, Polled(s.c, e.t).g;
    assert CheckedBytes(env.dev, g.(line := ""), f) == CheckedBytes(env.dev, g, f);
  }

  /** HELLO and STATUS are answered at once, and an input without effect is over
      with the controller's last reading for it. */
  lemma DoneInTime(dev: Device, c: Clocked, e: Arrival)
    requires e.Byte? && e.t <= e.after
    ensures e.t <= Done(c, e) <= e.after
    ensures match EffectAt(dev, c, e)
            case Nothing => Fed(dev, c, e).last == Done(c, e)
            case Grants(_) => true
            case _ => Done(c, e) == e.t
  {
  }

  lemma ByteKeepsInv(env: Env, s: System, e: Arrival, k: nat, now: int)
    requires Inv(env, s.(now := now, c := Polled(s.c, e.t))) && Inv(env, s) && s.now <= now <= Done(s.c, e) && e.Byte?
    requires e.t <= now && Enabled(env, s, Step.Device(e, k))
    ensures Inv(env, AfterDevice(env, s, e, k))
  {
    var s1, q, effect := s.(now := now, c := Polled(s.c, e.t)), Fed(env.dev, s.c, e), EffectAt(env.dev, s.c, e);
    FedIsByteStep(env.dev, s.c, e);
    if effect.Grants? { GrantedFrameIsBacked(env, s, e, k); }
    DoneInTime(env.dev, s.c, e);
    EffectKeepsInv(env, s1, e, k, q, effect);
  }

  lemma DeviceKeepsInv(env: Env, s: System, e: Arrival, k: nat)
    requires Inv(env, s) && Enabled(env, s, Step.Device(e, k))
    ensures Inv(env, AfterDevice(env, s, e, k))
  {
    var now := if s.now <= e.t then e.t else s.now;
    PollKeepsInv(env, s, e.t, now);
    if e.Byte? {
      DoneInTime(env.dev, s.c, e);
      ByteKeepsInv(env, s, e, k, now);
    }
  }

  lemma FaultKeepsInv(env: Env, s: System, t: int, reason: Reason)
    requires Inv(env, s) && s.now <= t
    ensures Inv(env, s.(now := t, c := s.c.(g := Fail(s.c.g, reason))))
  {
    GuardOnlyKeepsInv(env, s, t, s.c.(g := Fail(s.c.g, reason)));
  }

  lemma RebootKeepsInv(env: Env, s: System, t: int, flash: seq<Epoch.Cell>, epoch: u32)
    requires Inv(env, s) && s.now <= t && Epoch.BootStep(s.flash, flash, epoch)
    ensures Inv(env, s.(now := t, flash := flash, c := Clocked(Booted(env.dev, epoch), t, t, t, t)))
  {
    BootLatched(env.dev, epoch);
    Epoch.BootKeepsPrefix(s.flash, flash, epoch);
    TimePasses(env, s, t);
    var d := Clocked(Booted(env.dev, epoch), t, t, t, t);
    RebootKeepsIssues(env, s, t, Epoch.Used(flash), d);
    RebootKeepsAccepts(s, t, Epoch.Used(flash), d);
  }

  lemma RebootKeepsIssues(env: Env, s: System, t: int, used: nat, d: Clocked)
    requires IssuesOk(env.dev, s.now, Epoch.Used(s.flash), s.c, s.issues, |s.grants|) && s.now <= t && d.last == t
    requires Epoch.Used(s.flash) <= used && (d.g.epoch != 0 ==> Epoch.Used(s.flash) < d.g.epoch <= used)
    requires d.g.generation == 0 && (d.g.ready ==> d.g.epoch != 0)
    ensures IssuesOk(env.dev, t, used, d, s.issues, |s.grants|)
  {
    forall x | x in s.issues
      ensures IssueOk(t, used, d, x, s.issues[x], |s.grants|)
    {
      assert IssueOk(s.now, Epoch.Used(s.flash), s.c, x, s.issues[x], |s.grants|);
    }
  }

  lemma RebootKeepsAccepts(s: System, t: int, used: nat, d: Clocked)
    requires AcceptsOk(s.now, Epoch.Used(s.flash), s.c, s.issues, s.grants, s.accepts) && s.now <= t
    requires Epoch.Used(s.flash) <= used && (d.g.epoch != 0 ==> Epoch.Used(s.flash) < d.g.epoch <= used)
    requires d.g.generation == 0 && (d.g.ready ==> d.g.epoch != 0)
    ensures AcceptsOk(t, used, d, s.issues, s.grants, s.accepts)
  {
    forall i | 0 <= i < |s.accepts|
      ensures AcceptOk(t, used, d, s.issues, s.grants, s.accepts[i])
    {
      assert AcceptOk(s.now, Epoch.Used(s.flash), s.c, s.issues, s.grants, s.accepts[i]);
    }
  }

  lemma AcceptsSurvive(now: int, t: int, used: nat, c: Clocked, issues: map<Ctx, Issued>, grants: seq<Signed>,
                       more: seq<Signed>, accepts: seq<Accepted>)
    requires AcceptsOk(now, used, c, issues, grants, accepts) && now <= t
    ensures AcceptsOk(t, used, c, issues, grants + more, accepts)
  {
    forall i | 0 <= i < |accepts|
      ensures AcceptOk(t, used, c, issues, grants + more, accepts[i])
    {
      assert AcceptOk(now, used, c, issues, grants, accepts[i]);
    }
  }

  lemma StartKeepsInv(env: Env, s: System)
    requires Inv(env, s)
    ensures Inv(env, s.(parties := s.parties + [Party(A.FRESH, None, None, 0)]))
  {
    var parties := s.parties + [Party(A.FRESH, None, None, 0)];
    forall k | 0 <= k < |s.grants|
      ensures SignedOk(env, s.now, s.issues, parties, s.grants[k], k)
    {
      assert SignedOk(env, s.now, s.issues, s.parties, s.grants[k], k);
    }
  }

  /** One party changes; its signed history stays valid. */
  ghost predicate PartyMoves(old_: Party, new_: Party, t: int) {
    (old_.state.session != [] ==> new_.state.session == old_.state.session)
    && (old_.lockedAt.Some? ==> new_.lockedAt == old_.lockedAt)
    && (old_.lockedAt.None? && new_.lockedAt.Some? ==> t <= new_.lockedAt.value)
  }

  lemma PartyMoveKeepsGrants(env: Env, s: System, p: nat, party: Party, t: int)
    requires GrantsOk(env, s.now, s.issues, s.grants, s.parties) && p < |s.parties| && s.now <= t
    requires PartyMoves(s.parties[p], party, t)
    ensures GrantsOk(env, t, s.issues, s.grants, s.parties[p := party])
  {
    forall k | 0 <= k < |s.grants|
      ensures SignedOk(env, t, s.issues, s.parties[p := party], s.grants[k], k)
    {
      assert SignedOk(env, s.now, s.issues, s.parties, s.grants[k], k);
    }
  }

  lemma OthersKeepOk(env: Env, s: System, p: nat, party: Party, t: int, more: seq<Signed>)
    requires PartiesOk(env, s.now, s.issues, s.grants, s.parties) && p < |s.parties| && s.now <= t
    requires PartyOk(env, t, s.issues, s.grants + more, party, p)
    ensures PartiesOk(env, t, s.issues, s.grants + more, s.parties[p := party])
  {
    var grants, parties := s.grants + more, s.parties[p := party];
    forall i | 0 <= i < |parties|
      ensures PartyOk(env, t, s.issues, grants, parties[i], i)
    {
      if i != p {
        var other := s.parties[i];
        assert PartyOk(env, s.now, s.issues, s.grants, other, i);
        if other.pending.Some? {
          var q := other.pending.value;
          assert Known(env.dev, s.issues, A.Key16(q.request.nonce), q.begun, |s.grants|);
        }
      }
    }
  }

  lemma BeginKeepsInv(env: Env, s: System, p: nat, m: A.Request, t: int)
    requires Inv(env, s) && s.now <= t && p < |s.parties| && s.parties[p].pending.None?
    ensures Inv(env, AfterBegin(env, s, p, m, t))
  {
    var after := AfterBegin(env, s, p, m, t);
    var before, party := s.parties[p], after.parties[p];
    assert PartyOk(env, s.now, s.issues, s.grants, before, p);
    assert after.parties == s.parties[p := party];
    assert s.grants + [] == s.grants;
    BegunPartyOk(env, s, p, m, t);
    PartyMoveKeepsGrants(env, s, p, party, t);
    OthersKeepOk(env, s, p, party, t, []);
    AcceptsSurvive(s.now, t, Epoch.Used(s.flash), s.c, s.issues, s.grants, [], s.accepts);
  }

  lemma BegunPartyOk(env: Env, s: System, p: nat, m: A.Request, t: int)
    requires Inv(env, s) && s.now <= t && p < |s.parties| && s.parties[p].pending.None?
    ensures PartyOk(env, t, s.issues, s.grants, AfterBegin(env, s, p, m, t).parties[p], p)
  {
    var before := s.parties[p];
    assert PartyOk(env, s.now, s.issues, s.grants, before, p);
    if !A.Admit(env.config, before.state, m).Refused? {
      forall x | x in s.issues && CtxNonce(env.dev, x) == A.Key16(m.nonce)
        ensures s.issues[x].at <= t && s.issues[x].grants <= |s.grants|
      {
        assert IssueOk(s.now, Epoch.Used(s.flash), s.c, x, s.issues[x], |s.grants|);
      }
    }
  }

  lemma FinishKeepsInv(env: Env, s: System, p: nat, outcome: A.Outcome, t: int)
    requires Inv(env, s) && Enabled(env, s, Finish(p, outcome, t))
    ensures Inv(env, AfterFinish(env, s, p, outcome, t))
  {
    var before, q := s.parties[p], s.parties[p].pending.value;
    assert PartyOk(env, s.now, s.issues, s.grants, before, p);
    var after := AfterFinish(env, s, p, outcome, t);
    var party, more := after.parties[p], after.grants[|s.grants|..];
    FinishedPartyOk(env, s, p, outcome, t);
    assert after.parties == s.parties[p := party] && after.grants == s.grants + more;
    OthersKeepOk(env, s, p, party, t, more);
    AcceptsSurvive(s.now, t, Epoch.Used(s.flash), s.c, s.issues, s.grants, more, s.accepts);
    IssuesSurvive(env.dev, s.now, t, Epoch.Used(s.flash), s.c, s.issues, |s.grants|, |after.grants|);
  }

  lemma IssuesSurvive(dev: Device, now: int, t: int, used: nat, c: Clocked, issues: map<Ctx, Issued>, n: nat, m: nat)
    requires IssuesOk(dev, now, used, c, issues, n) && now <= t && n <= m
    ensures IssuesOk(dev, t, used, c, issues, m)
  {
    forall x | x in issues
      ensures IssueOk(t, used, c, x, issues[x], m)
    {
      assert IssueOk(now, used, c, x, issues[x], n);
    }
  }

  /** The party that answered, and what it may have signed, stay in order. */
  lemma FinishedPartyOk(env: Env, s: System, p: nat, outcome: A.Outcome, t: int)
    requires Inv(env, s) && Enabled(env, s, Finish(p, outcome, t))
    ensures var after := AfterFinish(env, s, p, outcome, t);
            after.now == t && s.grants <= after.grants
            && after == s.(now := t, parties := after.parties, grants := after.grants)
            && |after.parties| == |s.parties| && after.parties == s.parties[p := after.parties[p]]
            && PartyOk(env, t, s.issues, after.grants, after.parties[p], p)
            && GrantsOk(env, t, s.issues, after.grants, after.parties)
  {
    var before, q := s.parties[p], s.parties[p].pending.value;
    assert PartyOk(env, s.now, s.issues, s.grants, before, p);
    var (state, answer) := A.Finished(env.config, before.state, q.request, q.admission, outcome);
    if answer.Terminal? {
      PartyMoveKeepsGrants(env, s, p, before.(state := state, pending := None, lockedAt := Some(t)), t);
    } else {
      SignedPartyOk(env, s, p, outcome, t);
    }
  }

  lemma SignedPartyOk(env: Env, s: System, p: nat, outcome: A.Outcome, t: int)
    requires Inv(env, s) && Enabled(env, s, Finish(p, outcome, t)) && outcome.Allowed?
    ensures var after := AfterFinish(env, s, p, outcome, t);
            PartyOk(env, t, s.issues, after.grants, after.parties[p], p)
            && GrantsOk(env, t, s.issues, after.grants, after.parties)
  {
    var before, q := s.parties[p], s.parties[p].pending.value;
    assert PartyOk(env, s.now, s.issues, s.grants, before, p);
    var after := AfterFinish(env, s, p, outcome, t);
    var party, signed := after.parties[p], after.grants[|s.grants|];
    PartyMoveKeepsGrants(env, s, p, party, t);
    SignKeepsGrants(env, s, p, party, signed, t);
  }

  lemma SignKeepsGrants(env: Env, s: System, p: nat, party: Party, signed: Signed, t: int)
    requires p < |s.parties| && GrantsOk(env, t, s.issues, s.grants, s.parties[p := party])
    requires SignedOk(env, t, s.issues, s.parties[p := party], signed, |s.grants|)
    requires signed.op.Bind? ==> FreshEphemeral(s, signed.ephemeral)
    ensures GrantsOk(env, t, s.issues, s.grants + [signed], s.parties[p := party])
  {
  }

  lemma StepKeepsInv(env: Env, s: System, step: Step)
    requires Inv(env, s) && Enabled(env, s, step)
    ensures Inv(env, Next(env, s, step))
  {
    match step {
      case Device(e, k) => DeviceKeepsInv(env, s, e, k);
      case Fault(t, reason) => FaultKeepsInv(env, s, t, reason);
      case Reboot(t, flash, epoch) => RebootKeepsInv(env, s, t, flash, epoch);
      case Start => StartKeepsInv(env, s);
      case Begin(p, m, t) => BeginKeepsInv(env, s, p, m, t);
      case Finish(p, outcome, t) => FinishKeepsInv(env, s, p, outcome, t);
    }
  }

  // ---- behaviours ----

  ghost predicate SystemStep(env: Env, s: System, step: Step, s': System) {
    Enabled(env, s, step) && s' == Next(env, s, step)
  }

  /** Any interleaving of the controller, its reboots, the operator sessions and
      the relay. */
  ghost predicate Behaviour(env: Env, states: seq<System>, steps: seq<Step>) {
    |states| == |steps| + 1 && Initial(env, states[0])
    && forall i :: 0 <= i < |steps| ==> SystemStep(env, states[i], steps[i], states[i + 1])
  }

  lemma {:induction false} BehaviourInv(env: Env, states: seq<System>, steps: seq<Step>, n: nat)
    requires Behaviour(env, states, steps) && n <= |steps|
    ensures Inv(env, states[n])
  {
    if n == 0 {
      InitialInv(env, states[0]);
    } else {
      BehaviourInv(env, states, steps, n - 1);
      assert SystemStep(env, states[n - 1], steps[n - 1], states[n - 1 + 1]);
      StepKeepsInv(env, states[n - 1], steps[n - 1]);
    }
  }

  /** Two sessions never share a key. */
  lemma SessionsDistinct(env: Env, s: System, p: nat, q: nat)
    requires Inv(env, s) && p < |s.parties| && q < |s.parties|
    requires s.parties[p].state.session == s.parties[q].state.session != []
    ensures p == q
  {
    assert PartyOk(env, s.now, s.issues, s.grants, s.parties[p], p);
    assert PartyOk(env, s.now, s.issues, s.grants, s.parties[q], q);
    var i, j := s.parties[p].bind, s.parties[q].bind;
    var a, b := s.grants[i], s.grants[j];
    assert SignedOk(env, s.now, s.issues, s.parties, a, i) && SignedOk(env, s.now, s.issues, s.parties, b, j);
    BindBytesInjective(A.ClaimFor(a.request), a.ephemeral, env.config.controller,
                       A.ClaimFor(b.request), b.ephemeral, env.config.controller);
  }

  /** Output implies that the authorizer of the bound session signed, not later
      than its lock, a permit for the challenge that started the lease. */
  lemma OutputIsAuthorized(env: Env, s: System, q: nat)
    requires Inv(env, s) && s.c.g.on && q < |s.parties| && s.parties[q].state.session == s.c.g.session
    requires s.parties[q].lockedAt.Some?
    ensures s.c.leaseAt <= s.parties[q].lockedAt.value
    ensures s.c.last < s.parties[q].lockedAt.value + LEASE_MS
  {
    var a := s.accepts[|s.accepts| - 1];
    assert AcceptOk(s.now, Epoch.Used(s.flash), s.c, s.issues, s.grants, a);
    var signed := s.grants[a.grant];
    assert SignedOk(env, s.now, s.issues, s.parties, signed, a.grant);
    SessionsDistinct(env, s, signed.signer, q);
  }

  /** Once the authorizer of the bound session has locked, at true time T, output
      is off whenever the controller's latest reading is at or after T + 200 ms: for
      every interleaving and whatever the relay does. */
  lemma LockedSessionGoesDark(env: Env, states: seq<System>, steps: seq<Step>, n: nat, q: nat)
    requires Behaviour(env, states, steps) && n <= |steps|
    requires var s := states[n];
             q < |s.parties| && s.parties[q].lockedAt.Some? && s.parties[q].lockedAt.value + LEASE_MS <= s.c.last
             && s.parties[q].state.session == s.c.g.session
    ensures !states[n].c.g.on
  {
    BehaviourInv(env, states, steps, n);
    if states[n].c.g.on { OutputIsAuthorized(env, states[n], q); }
  }

  /** The same for the reading with which an input begins, before the controller
      turns to the input itself: also while it goes on to verify a frame. */
  lemma LockedSessionIsReadDark(env: Env, states: seq<System>, steps: seq<Step>, n: nat, q: nat)
    requires Behaviour(env, states, steps) && n < |steps| && steps[n].Device?
    requires var s, t := states[n], steps[n].e.t;
             q < |s.parties| && s.parties[q].lockedAt.Some? && s.parties[q].lockedAt.value + LEASE_MS <= t
             && s.parties[q].state.session == Polled(s.c, t).g.session
    ensures !Polled(states[n].c, steps[n].e.t).g.on
  {
    var s, e := states[n], steps[n].e;
    BehaviourInv(env, states, steps, n);
    assert SystemStep(env, s, steps[n], states[n + 1]);
    var now := if s.now <= e.t then e.t else s.now;
    PollKeepsInv(env, s, e.t, now);
    if Polled(s.c, e.t).g.on { OutputIsAuthorized(env, s.(now := now, c := Polled(s.c, e.t)), q); }
  }

  ghost predicate AllLockedBy(parties: seq<Party>, T: int) {
    forall q :: 0 <= q < |parties| ==> parties[q].lockedAt.Some? && parties[q].lockedAt.value <= T
  }

  /** If every session ever started had locked by T, there is no output at all
      once the latest reading is at or after T + 200 ms. */
  lemma AllLockedGoesDark(env: Env, states: seq<System>, steps: seq<Step>, n: nat, T: int)
    requires Behaviour(env, states, steps) && n <= |steps| && T + LEASE_MS <= states[n].c.last
    requires AllLockedBy(states[n].parties, T)
    ensures !states[n].c.g.on
  {
    var s := states[n];
    BehaviourInv(env, states, steps, n);
    if s.c.g.on {
      var a := s.accepts[|s.accepts| - 1];
      assert AcceptOk(s.now, Epoch.Used(s.flash), s.c, s.issues, s.grants, a);
      assert SignedOk(env, s.now, s.issues, s.parties, s.grants[a.grant], a.grant);
      LockedSessionGoesDark(env, states, steps, n, s.grants[a.grant].signer);
    }
  }

  /** The same for the reading with which an input begins. */
  lemma AllLockedIsReadDark(env: Env, states: seq<System>, steps: seq<Step>, n: nat, T: int)
    requires Behaviour(env, states, steps) && n < |steps| && steps[n].Device? && T + LEASE_MS <= steps[n].e.t
    requires AllLockedBy(states[n].parties, T)
    ensures !Polled(states[n].c, steps[n].e.t).g.on
  {
    var s, e := states[n], steps[n].e;
    BehaviourInv(env, states, steps, n);
    TickCases(s.c.g, Dev(s.c.boot, e.t));
    if Polled(s.c, e.t).g.on {
      var a := s.accepts[|s.accepts| - 1];
      assert AcceptOk(s.now, Epoch.Used(s.flash), s.c, s.issues, s.grants, a);
      assert SignedOk(env, s.now, s.issues, s.parties, s.grants[a.grant], a.grant);
      LockedSessionIsReadDark(env, states, steps, n, s.grants[a.grant].signer);
    }
  }

  /** Accepted frames map injectively and in order to grants, and the whole call
      behind each lies between the issue of its challenge and its acceptance;
      for a RUN these are less than 50 ms of true time apart. */
  lemma AcceptedFramesAreJustified(env: Env, states: seq<System>, steps: seq<Step>, n: nat, i: nat)
    requires Behaviour(env, states, steps) && n <= |steps| && i < |states[n].accepts|
    ensures Justified(states[n].grants, states[n].accepts[i])
    ensures forall j :: i < j < |states[n].accepts| ==> states[n].accepts[i].grant < states[n].accepts[j].grant
  {
    BehaviourInv(env, states, steps, n);
    var s := states[n];
    assert AcceptOk(s.now, Epoch.Used(s.flash), s.c, s.issues, s.grants, s.accepts[i]);
  }

  /** Each later acceptance in the life of the device, through HELLOs, reboots
      and power cuts, has a larger (epoch, generation, sequence), and no
      authenticated byte string is accepted twice. */
  lemma NothingIsAcceptedTwice(env: Env, states: seq<System>, steps: seq<Step>, n: nat, i: nat, j: nat)
    requires Behaviour(env, states, steps) && n <= |steps| && i < j < |states[n].accepts|
    ensures Above(states[n].accepts[j], states[n].accepts[i])
    ensures states[n].accepts[i].bytes != states[n].accepts[j].bytes
  {
    BehaviourInv(env, states, steps, n);
    var s := states[n];
    var a, b := s.accepts[i], s.accepts[j];
    assert AcceptOk(s.now, Epoch.Used(s.flash), s.c, s.issues, s.grants, a);
    assert AcceptOk(s.now, Epoch.Used(s.flash), s.c, s.issues, s.grants, b);
    var x, y := s.grants[a.grant], s.grants[b.grant];
    assert SignedOk(env, s.now, s.issues, s.parties, x, a.grant)
           && SignedOk(env, s.now, s.issues, s.parties, y, b.grant);
    if a.bytes == b.bytes { SameBytesSameClaim(env, s, a.grant, b.grant); }
  }

  lemma SameBytesSameClaim(env: Env, s: System, k: nat, l: nat)
    requires k < |s.grants| && l < |s.grants| && s.grants[k].bytes == s.grants[l].bytes
    requires SignedOk(env, s.now, s.issues, s.parties, s.grants[k], k)
    requires SignedOk(env, s.now, s.issues, s.parties, s.grants[l], l)
    ensures A.ClaimFor(s.grants[k].request) == A.ClaimFor(s.grants[l].request)
  {
    var x, y := s.grants[k], s.grants[l];
    assert x.op.Bind? <==> |x.bytes| == BIND_SIZE;
    assert y.op.Bind? <==> |y.bytes| == BIND_SIZE;
    if x.op.Bind? {
      BindBytesInjective(A.ClaimFor(x.request), x.ephemeral, env.config.controller,
                         A.ClaimFor(y.request), y.ephemeral, env.config.controller);
    } else {
      LedBytesInjective(A.ClaimFor(x.request), A.ClaimFor(y.request));
    }
  }

  // ---- where grants come from ----

  lemma StepOnGrants(env: Env, s: System, step: Step)
    requires Enabled(env, s, step)
    ensures var s' := Next(env, s, step);
            s'.grants == s.grants
            || (step.Finish? && step.outcome.Allowed? && |s'.grants| == |s.grants| + 1 && s.grants <= s'.grants
                && var new_, q := s'.grants[|s.grants|], s.parties[step.p].pending.value;
                   new_.signer == step.p && new_.done == step.t && new_.request == q.request && new_.begun == q.begun)
  {
  }

  lemma StepOnPending(env: Env, s: System, step: Step, p: nat)
    requires Enabled(env, s, step)
    requires p < |Next(env, s, step).parties| && Next(env, s, step).parties[p].pending.Some?
    ensures var q := Next(env, s, step).parties[p].pending.value;
            || (p < |s.parties| && s.parties[p].pending == Some(q))
            || (step.Begin? && step.p == p && step.request == q.request && step.t == q.begun)
  {
  }

  lemma {:induction false} PendingWasBegun(env: Env, states: seq<System>, steps: seq<Step>, n: nat, p: nat)
    returns (b: nat)
    requires Behaviour(env, states, steps) && n <= |steps|
    requires p < |states[n].parties| && states[n].parties[p].pending.Some?
    ensures b < n && steps[b].Begin? && steps[b].p == p
    ensures steps[b].request == states[n].parties[p].pending.value.request
    ensures steps[b].t == states[n].parties[p].pending.value.begun
  {
    assert n > 0;
    assert SystemStep(env, states[n - 1], steps[n - 1], states[n - 1 + 1]);
    StepOnPending(env, states[n - 1], steps[n - 1], p);
    if p < |states[n - 1].parties| && states[n - 1].parties[p].pending == states[n].parties[p].pending {
      b := PendingWasBegun(env, states, steps, n - 1, p);
    } else {
      b := n - 1;
    }
  }

  /** Every grant is the answer to one request, made by a later call outcome in
      which the gate allowed it (or, for a key exchange, in which nothing failed). */
  lemma {:induction false} GrantsComeFromAllowedCycles(env: Env, states: seq<System>, steps: seq<Step>, n: nat, k: nat)
    returns (b: nat, m: nat)
    requires Behaviour(env, states, steps) && n <= |steps| && k < |states[n].grants|
    ensures b < m < n && steps[b].Begin? && steps[m].Finish? && steps[m].outcome.Allowed?
    ensures var g := states[n].grants[k];
            steps[b].p == steps[m].p == g.signer && steps[b].request == g.request
            && steps[b].t == g.begun && steps[m].t == g.done
    ensures |states[m].grants| == k
  {
    assert n > 0;
    assert SystemStep(env, states[n - 1], steps[n - 1], states[n - 1 + 1]);
    StepOnGrants(env, states[n - 1], steps[n - 1]);
    if k < |states[n - 1].grants| {
      assert states[n].grants[k] == states[n - 1].grants[k];
      b, m := GrantsComeFromAllowedCycles(env, states, steps, n - 1, k);
    } else {
      m := n - 1;
      b := PendingWasBegun(env, states, steps, n - 1, steps[n - 1].p);
    }
  }
}
