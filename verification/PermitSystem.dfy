/** One controller with its flash, any number of operator sessions, and a relay
    that may drop, delay, repeat, reorder or invent bytes and requests. */
module PermitSystem {
  import opened Bytes
  import opened Text
  import opened Payload
  import opened Frames
  import opened Guard
  import opened GuardRuns
  import opened GuardClock
  import A = Authorizer
  import Epoch

  datatype Env = Env(dev: Device, config: A.Config)

  /** What a challenge nonce answers for. */
  datatype Ctx = Ctx(epoch: u32, generation: u32, sequence: u32, challenge: u32, issued: u32)

  function CtxOf(g: State): Ctx { Ctx(g.epoch, g.generation, g.sequence, g.challenge, g.issued) }

  function CtxNonce(dev: Device, x: Ctx): Bytes16 {
    dev.crypto.nonceOf(LedBytes(Claim(dev.install, x.epoch, x.generation, x.sequence, x.challenge, x.issued, 0, 2,
                                      ZERO16)))
  }

  /** When a challenge was issued, and how many grants existed then. */
  datatype Issued = Issued(at: int, grants: nat)

  /** A permit or key exchange that a session signed. */
  datatype Signed = Signed(signer: nat, op: Op, request: A.Request, session: seq<byte>, bytes: seq<byte>,
                           ephemeral: Bytes32, begun: int, done: int)

  datatype Pending = Pending(request: A.Request, admission: A.Admission, begun: int)

  datatype Party = Party(state: A.State, pending: Option<Pending>, lockedAt: Option<int>, bind: nat)

  /** A frame the controller accepted, and the index of the grant behind it. */
  datatype Accepted = Accepted(op: Op, epoch: u32, generation: u32, sequence: u32, session: seq<byte>,
                               bytes: seq<byte>, issuedAt: int, at: int, grant: nat)

  datatype System = System(now: int, flash: seq<Epoch.Cell>, c: Clocked, issues: map<Ctx, Issued>,
                           parties: seq<Party>, grants: seq<Signed>, accepts: seq<Accepted>)

  datatype Step =
    | Device(e: Arrival, k: nat)
    | Fault(t: int, reason: Reason)
    | Reboot(t: int, flash: seq<Epoch.Cell>, epoch: u32)
    | Start
    | Begin(p: nat, request: A.Request, t: int)
    | Finish(p: nat, outcome: A.Outcome, t: int)

  // ---- what the environment cannot do ----

  /** The bytes under a tag that verifies were signed: a key exchange with the
      authorizer's key, a permit with the key of this very session. */
  ghost predicate Backed(grants: seq<Signed>, k: nat, op: Op, session: seq<byte>, bytes: seq<byte>) {
    k < |grants| && grants[k].bytes == bytes
    && if op.Bind? then grants[k].op.Bind? else !grants[k].op.Bind? && grants[k].session == session
  }

  /** Only frames that the controller verifies count: one that it refuses before
      any cryptography, such as any permit while no session is bound and the key
      is wiped, may carry whatever tag the relay likes. */
  ghost predicate Unforged(env: Env, s: System, e: Arrival, k: nat) {
    e.Byte? ==>
      var g := Polled(s.c, e.t).g;
      Completed(g, e.ch).Some? ==>
        var f, g0 := Completed(g, e.ch).value, g.(line := "");
        g0.ready && Objection(g0, f, Dev(s.c.boot, e.t)).None? && f.Shaped() && Authentic(env.dev, g0, f) ==>
          Backed(s.grants, k, f.op, g0.session, CheckedBytes(env.dev, g0, f))
  }

  /** The request carries this nonce. */
  predicate Carries(m: A.Request, nonce: Bytes16) { A.Context(m) && A.Key16(m.nonce) == nonce }

  /** No request that was signed or is being answered carries this nonce. */
  ghost predicate FreshNonce(s: System, nonce: Bytes16) {
    (forall k :: 0 <= k < |s.grants| ==> !Carries(s.grants[k].request, nonce))
    && (forall p :: 0 <= p < |s.parties| && s.parties[p].pending.Some? ==>
          !Carries(s.parties[p].pending.value.request, nonce))
  }

  /** A nonce is new when the controller issues it: no request contained it before. */
  ghost predicate IssuesFresh(env: Env, s: System, e: Arrival) {
    e.Byte? && !EffectAt(env.dev, s.c, e).Nothing? ==> FreshNonce(s, Fed(env.dev, s.c, e).g.nonce)
  }

  /** Every key exchange uses a new ephemeral key. */
  ghost predicate FreshEphemeral(s: System, key: Bytes32) {
    forall k :: 0 <= k < |s.grants| && s.grants[k].op.Bind? ==> s.grants[k].ephemeral != key
  }

  // ---- the steps ----

  /** When the controller is done with an input. It blocks while it verifies a
      frame, and the sessions go on meanwhile: steps are ordered by completion. */
  ghost function Done(c: Clocked, e: Arrival): int {
    if e.Byte? && Verifies(Polled(c, e.t).g, e.ch, Dev(c.boot, e.t)) then e.after else e.t
  }

  ghost predicate Enabled(env: Env, s: System, step: Step) {
    match step
    case Device(e, k) => s.now <= Done(s.c, e) && Admissible(s.c, e) && Unforged(env, s, e, k) && IssuesFresh(env, s, e)
    case Fault(t, _) => s.now <= t
    case Reboot(t, flash, epoch) => s.now <= t && Epoch.BootStep(s.flash, flash, epoch)
    case Start => true
    case Begin(p, m, t) => s.now <= t && p < |s.parties| && s.parties[p].pending.None?
    case Finish(p, outcome, t) =>
      s.now <= t && p < |s.parties| && s.parties[p].pending.Some?
      && (outcome.Allowed? && s.parties[p].pending.value.admission.KeyExchange? ==>
            FreshEphemeral(s, outcome.ephemeral))
  }

  ghost function Next(env: Env, s: System, step: Step): System
    requires Enabled(env, s, step)
  {
    match step
    case Device(e, k) => AfterDevice(env, s, e, k)
    case Fault(t, reason) => s.(now := t, c := s.c.(g := Fail(s.c.g, reason)))
    case Reboot(t, flash, epoch) => s.(now := t, flash := flash, c := Clocked(Booted(env.dev, epoch), t, t, t, t))
    case Start => s.(parties := s.parties + [Party(A.FRESH, None, None, 0)])
    case Begin(p, m, t) => AfterBegin(env, s, p, m, t)
    case Finish(p, outcome, t) => AfterFinish(env, s, p, outcome, t)
  }

  ghost function AfterDevice(env: Env, s: System, e: Arrival, k: nat): System {
    if e.Poll? then s.(now := e.t, c := Polled(s.c, e.t)) else
    var p, q := Polled(s.c, e.t), Fed(env.dev, s.c, e);
    WithEffect(env.dev, s, e, k, p, q, EffectAt(env.dev, s.c, e))
  }

  ghost function WithEffect(dev: Device, s: System, e: Arrival, k: nat, p: Clocked, q: Clocked, effect: Effect): System
    requires e.Byte?
  {
    match effect
    case Nothing => s.(now := q.last, c := q)
    case Grants(f) =>
      s.(now := e.after, c := q, issues := s.issues[CtxOf(q.g) := Issued(e.after, |s.grants|)],
         accepts := s.accepts + [AcceptedBy(dev, p, f, e.after, k)])
    case _ => s.(now := e.t, c := q, issues := s.issues[CtxOf(q.g) := Issued(e.t, |s.grants|)])
  }

  ghost function AcceptedBy(dev: Device, p: Clocked, f: Frame, after: int, k: nat): Accepted {
    var bytes := if f.Shaped() then CheckedBytes(dev, p.g, f) else [];
    Accepted(f.op, p.g.epoch, f.generation, f.sequence, if f.op.Bind? then bytes else p.g.session, bytes,
             p.issuedAt, after, k)
  }

  ghost function AfterBegin(env: Env, s: System, p: nat, m: A.Request, t: int): System
    requires p < |s.parties|
  {
    var party := s.parties[p];
    var admission := A.Admit(env.config, party.state, m);
    var state := A.Begun(env.config, party.state, m);
    s.(now := t,
       parties := s.parties[p := if admission.Refused?
                                 then party.(state := state,
                                             lockedAt := if party.lockedAt.None? then Some(t) else party.lockedAt)
                                 else party.(state := state, pending := Some(Pending(m, admission, t)))])
  }

  ghost function AfterFinish(env: Env, s: System, p: nat, outcome: A.Outcome, t: int): System
    requires p < |s.parties| && s.parties[p].pending.Some?
  {
    var party, q := s.parties[p], s.parties[p].pending.value;
    if !(A.Context(q.request) && (q.admission.KeyExchange? ==> q.request.op == "BIND")) then s else
    var (state, answer) := A.Finished(env.config, party.state, q.request, q.admission, outcome);
    if answer.Terminal?
    then s.(now := t, parties := s.parties[p := party.(state := state, pending := None, lockedAt := Some(t))])
    else s.(now := t,
            parties := s.parties[p := party.(state := state, pending := None,
                                             bind := if q.admission.KeyExchange? then |s.grants| else party.bind)],
            grants := s.grants + [Signed(p, answer.op, q.request, state.session, answer.bytes, outcome.ephemeral,
                                         q.begun, t)])
  }

  ghost predicate Initial(env: Env, s: System) {
    s.c == Clocked(Booted(env.dev, 0), s.now, s.now, s.now, s.now)
    && s.issues == map[] && s.parties == [] && s.grants == [] && s.accepts == []
  }

  // ---- the invariant ----

  predicate PairLe(a: int, b: int, c: int, d: int) { a < c || (a == c && b <= d) }

  ghost predicate IssueOk(now: int, used: nat, c: Clocked, x: Ctx, issued: Issued, grants: nat) {
    issued.at <= now && issued.grants <= grants && 1 <= x.epoch <= used
    && (x.epoch == c.g.epoch ==> PairLe(x.generation, x.challenge, c.g.generation, c.g.challenge))
  }

  ghost predicate IssuesOk(dev: Device, now: int, used: nat, c: Clocked, issues: map<Ctx, Issued>, grants: nat) {
    && (forall x :: x in issues ==> IssueOk(now, used, c, x, issues[x], grants))
    && (c.g.generation != 0 ==> CtxOf(c.g) in issues && issues[CtxOf(c.g)].at == c.issuedAt
                                && c.g.nonce == CtxNonce(dev, CtxOf(c.g)))
    && c.g.epoch <= used && (c.g.ready ==> c.g.epoch != 0) && c.last <= now
  }

  /** A request that carries the nonce of a challenge came after its issue. */
  ghost predicate Known(dev: Device, issues: map<Ctx, Issued>, nonce: Bytes16, begun: int, mark: nat) {
    forall x :: x in issues && CtxNonce(dev, x) == nonce ==> issues[x].at <= begun && issues[x].grants <= mark
  }

  ghost predicate PartyOk(env: Env, now: int, issues: map<Ctx, Issued>, grants: seq<Signed>, party: Party, p: nat) {
    && (party.state.locked <==> party.lockedAt.Some?)
    && (party.state.locked ==> party.pending.None?)
    && (party.state.binding.None? ==> party.state.session == [] && party.pending.None?)
    && (party.pending.Some? ==> PendingOk(env, now, issues, grants, party))
    && (party.state.binding.Some? && party.pending.None? && !party.state.locked ==> party.state.session != [])
    && (party.state.session != [] ==>
          party.bind < |grants| && grants[party.bind].op.Bind? && grants[party.bind].signer == p
          && grants[party.bind].session == party.state.session)
  }

  ghost predicate PendingOk(env: Env, now: int, issues: map<Ctx, Issued>, grants: seq<Signed>, party: Party)
    requires party.pending.Some?
  {
    var q := party.pending.value;
    A.Context(q.request) && !q.admission.Refused? && q.begun <= now
    && Known(env.dev, issues, A.Key16(q.request.nonce), q.begun, |grants|)
    && (if q.admission.KeyExchange? then q.request.op == "BIND" && party.state.session == []
        else q.request.op != "BIND" && party.state.session != [])
  }

  ghost predicate PartiesOk(env: Env, now: int, issues: map<Ctx, Issued>, grants: seq<Signed>, parties: seq<Party>) {
    forall p {:trigger PartyOk(env, now, issues, grants, parties[p], p)} ::
      0 <= p < |parties| ==> PartyOk(env, now, issues, grants, parties[p], p)
  }

  ghost predicate SignedOk(env: Env, now: int, issues: map<Ctx, Issued>, parties: seq<Party>, g: Signed, k: nat) {
    && g.signer < |parties| && A.Context(g.request) && g.op == A.OpOf(g.request) && g.begun <= g.done <= now
    && Known(env.dev, issues, A.Key16(g.request.nonce), g.begun, k)
    && g.session == parties[g.signer].state.session && g.session != []
    && (parties[g.signer].lockedAt.Some? ==> g.done <= parties[g.signer].lockedAt.value)
    && (if g.op.Bind?
        then g.bytes == BindBytes(A.ClaimFor(g.request), g.ephemeral, env.config.controller) && g.session == g.bytes
        else g.bytes == LedBytes(A.ClaimFor(g.request)))
  }

  ghost predicate GrantsOk(env: Env, now: int, issues: map<Ctx, Issued>, grants: seq<Signed>, parties: seq<Party>) {
    && (forall k {:trigger SignedOk(env, now, issues, parties, grants[k], k)} ::
          0 <= k < |grants| ==> SignedOk(env, now, issues, parties, grants[k], k))
    && (forall i, j :: 0 <= i < j < |grants| && grants[i].op.Bind? && grants[j].op.Bind? ==>
          grants[i].ephemeral != grants[j].ephemeral)
  }

  /** The request asked for exactly the accepted number of the accepting session. */
  ghost predicate Names(m: A.Request, a: Accepted) {
    m.Request? && m.epoch == a.epoch && m.generation == a.generation && m.sequence + 1 == a.sequence
  }

  /** A grant behind an accepted frame: same bytes and session, and its whole
      call lies between the issue of the challenge and the acceptance. */
  ghost predicate Justified(grants: seq<Signed>, a: Accepted) {
    a.grant < |grants| && a.op == grants[a.grant].op && a.bytes == grants[a.grant].bytes
    && a.session == grants[a.grant].session && Names(grants[a.grant].request, a)
    && a.issuedAt <= grants[a.grant].begun <= grants[a.grant].done <= a.at
    && (a.op.Run? ==> a.at - a.issuedAt < PERMIT_MS)
  }

  /** Strictly larger (epoch, generation, sequence). */
  predicate Above(b: Accepted, a: Accepted) {
    a.epoch < b.epoch
    || (a.epoch == b.epoch
        && (a.generation < b.generation || (a.generation == b.generation && a.sequence < b.sequence)))
  }

  ghost predicate AcceptOk(now: int, used: nat, c: Clocked, issues: map<Ctx, Issued>, grants: seq<Signed>,
                           a: Accepted) {
    && Justified(grants, a) && a.at <= now && 1 <= a.epoch <= used
    && (a.epoch == c.g.epoch ==> PairLe(a.generation, a.sequence, c.g.generation, c.g.sequence))
    && (c.g.ready ==> a.epoch <= c.g.epoch)
    && (c.g.generation != 0 && CtxOf(c.g) in issues ==> a.grant < issues[CtxOf(c.g)].grants)
  }

  ghost predicate AcceptsOk(now: int, used: nat, c: Clocked, issues: map<Ctx, Issued>, grants: seq<Signed>,
                            accepts: seq<Accepted>)
  {
    && (forall i {:trigger AcceptOk(now, used, c, issues, grants, accepts[i])} ::
          0 <= i < |accepts| ==> AcceptOk(now, used, c, issues, grants, accepts[i]))
    && (forall i, j :: 0 <= i < j < |accepts| ==> accepts[i].grant < accepts[j].grant && Above(accepts[j], accepts[i]))
  }

  ghost predicate Linked(c: Clocked, last: Accepted) {
    last.session == c.g.session && last.epoch == c.g.epoch && last.generation == c.g.generation
    && (c.g.on ==> last.op.Run? && last.issuedAt == c.leaseAt)
  }

  /** The current session is that of the latest acceptance, and output comes from
      a RUN whose challenge started the lease. */
  ghost predicate LinkOk(c: Clocked, accepts: seq<Accepted>) {
    c.g.bound ==> accepts != [] && Linked(c, accepts[|accepts| - 1])
  }

  ghost predicate Inv(env: Env, s: System) {
    && Timed(s.c)
    && IssuesOk(env.dev, s.now, Epoch.Used(s.flash), s.c, s.issues, |s.grants|)
    && PartiesOk(env, s.now, s.issues, s.grants, s.parties)
    && GrantsOk(env, s.now, s.issues, s.grants, s.parties)
    && AcceptsOk(s.now, Epoch.Used(s.flash), s.c, s.issues, s.grants, s.accepts)
    && LinkOk(s.c, s.accepts)
  }

  lemma InitialInv(env: Env, s: System)
    requires Initial(env, s)
    ensures Inv(env, s)
  {
    BootLatched(env.dev, 0);
  }

  // ---- steps that only touch the guard's state ----

  /** The guard may lose authority but nothing else changes. */
  ghost predicate GuardOnly(c: Clocked, d: Clocked) {
    SameCounters(c.g, d.g) && (d.g.bound ==> c.g.bound && d.g.session == c.g.session)
    && (d.g.on ==> c.g.on && d.leaseAt == c.leaseAt) && d.issuedAt == c.issuedAt
  }

  lemma GuardOnlyKeepsInv(env: Env, s: System, now: int, d: Clocked)
    requires Inv(env, s) && s.now <= now && GuardOnly(s.c, d) && Timed(d) && d.last <= now
    ensures Inv(env, s.(now := now, c := d))
  {
    TimePasses(env, s, now);
    GuardOnlyKeepsIssues(env.dev, s.now, now, Epoch.Used(s.flash), s.c, d, s.issues, |s.grants|);
    GuardOnlyKeepsAccepts(s.now, now, Epoch.Used(s.flash), s.c, d, s.issues, s.grants, s.accepts);
  }

  lemma GuardOnlyKeepsIssues(dev: Device, t: int, now: int, used: nat, c: Clocked, d: Clocked, issues: map<Ctx, Issued>,
                             grants: nat)
    requires IssuesOk(dev, t, used, c, issues, grants) && t <= now && d.last <= now && GuardOnly(c, d)
    ensures IssuesOk(dev, now, used, d, issues, grants)
  {
    assert CtxOf(d.g) == CtxOf(c.g);
    forall x | x in issues
      ensures IssueOk(now, used, d, x, issues[x], grants)
    {
      assert IssueOk(t, used, c, x, issues[x], grants);
    }
  }

  lemma GuardOnlyKeepsAccepts(t: int, now: int, used: nat, c: Clocked, d: Clocked, issues: map<Ctx, Issued>,
                              grants: seq<Signed>, accepts: seq<Accepted>)
    requires AcceptsOk(t, used, c, issues, grants, accepts) && t <= now && SameCounters(c.g, d.g)
    ensures AcceptsOk(now, used, d, issues, grants, accepts)
  {
    assert CtxOf(d.g) == CtxOf(c.g);
    forall i | 0 <= i < |accepts|
      ensures AcceptOk(now, used, d, issues, grants, accepts[i])
    {
      assert AcceptOk(t, used, c, issues, grants, accepts[i]);
    }
  }

  lemma TimePasses(env: Env, s: System, now: int)
    requires PartiesOk(env, s.now, s.issues, s.grants, s.parties) && GrantsOk(env, s.now, s.issues, s.grants, s.parties)
    requires s.now <= now
    ensures PartiesOk(env, now, s.issues, s.grants, s.parties) && GrantsOk(env, now, s.issues, s.grants, s.parties)
  {
    forall p | 0 <= p < |s.parties|
      ensures PartyOk(env, now, s.issues, s.grants, s.parties[p], p)
    {
      assert PartyOk(env, s.now, s.issues, s.grants, s.parties[p], p);
    }
    forall k | 0 <= k < |s.grants|
      ensures SignedOk(env, now, s.issues, s.parties, s.grants[k], k)
    {
      assert SignedOk(env, s.now, s.issues, s.parties, s.grants[k], k);
    }
  }

  // ---- a new challenge ----

  lemma NewChallengeKeepsKnown(dev: Device, issues: map<Ctx, Issued>, y: Ctx, at: Issued, nonce: Bytes16, begun: int,
                               mark: nat)
    requires CtxNonce(dev, y) != nonce && Known(dev, issues, nonce, begun, mark)
    ensures Known(dev, issues[y := at], nonce, begun, mark)
  {
  }

  lemma NewChallengeKeepsPeople(env: Env, s: System, now: int, y: Ctx, at: Issued)
    requires FreshNonce(s, CtxNonce(env.dev, y)) && s.now <= now
    requires PartiesOk(env, s.now, s.issues, s.grants, s.parties) && GrantsOk(env, s.now, s.issues, s.grants, s.parties)
    ensures PartiesOk(env, now, s.issues[y := at], s.grants, s.parties)
    ensures GrantsOk(env, now, s.issues[y := at], s.grants, s.parties)
  {
    var issues := s.issues[y := at];
    forall p | 0 <= p < |s.parties|
      ensures PartyOk(env, now, issues, s.grants, s.parties[p], p)
    {
      var party := s.parties[p];
      assert PartyOk(env, s.now, s.issues, s.grants, party, p);
      if party.pending.Some? {
        var q := party.pending.value;
        NewChallengeKeepsKnown(env.dev, s.issues, y, at, A.Key16(q.request.nonce), q.begun, |s.grants|);
      }
    }
    forall k | 0 <= k < |s.grants|
      ensures SignedOk(env, now, issues, s.parties, s.grants[k], k)
    {
      var g := s.grants[k];
      assert SignedOk(env, s.now, s.issues, s.parties, g, k);
      NewChallengeKeepsKnown(env.dev, s.issues, y, at, A.Key16(g.request.nonce), g.begun, k);
    }
  }

  /** The guard moved on to a challenge it never issued before. */
  ghost predicate Advances(dev: Device, c: Clocked, d: Clocked) {
    c.g.ready && d.g.epoch == c.g.epoch && (d.g.ready ==> c.g.ready) && d.g.generation != 0
    && !PairLe(d.g.generation, d.g.challenge, c.g.generation, c.g.challenge)
    && PairLe(c.g.generation, c.g.challenge, d.g.generation, d.g.challenge)
    && PairLe(c.g.generation, c.g.sequence, d.g.generation, d.g.sequence)
    && d.g.nonce == CtxNonce(dev, CtxOf(d.g))
  }

  lemma AdvanceKeepsIssues(dev: Device, now: int, t: int, used: nat, c: Clocked, d: Clocked, issues: map<Ctx, Issued>,
                           grants: nat)
    requires IssuesOk(dev, now, used, c, issues, grants) && Advances(dev, c, d) && now <= t && d.issuedAt == t
             && d.last <= t
    ensures CtxOf(d.g) !in issues
    ensures IssuesOk(dev, t, used, d, issues[CtxOf(d.g) := Issued(t, grants)], grants)
  {
  }

  lemma AdvanceKeepsAccepts(now: int, t: int, used: nat, c: Clocked, d: Clocked, dev: Device, issues: map<Ctx, Issued>,
                            grants: seq<Signed>, accepts: seq<Accepted>)
    requires AcceptsOk(now, used, c, issues, grants, accepts) && Advances(dev, c, d) && now <= t
    ensures AcceptsOk(t, used, d, issues[CtxOf(d.g) := Issued(t, |grants|)], grants, accepts)
  {
    forall i | 0 <= i < |accepts|
      ensures AcceptOk(t, used, d, issues[CtxOf(d.g) := Issued(t, |grants|)], grants, accepts[i])
    {
      assert AcceptOk(now, used, c, issues, grants, accepts[i]);
    }
  }

  /** HELLO or STATUS. */
  lemma ChallengeKeepsInv(env: Env, s: System, d: Clocked, t: int)
    requires Inv(env, s) && s.now <= t && Timed(d) && Advances(env.dev, s.c, d) && d.issuedAt == t && d.last <= t
    requires d.g.bound ==> s.c.g.bound && d.g.session == s.c.g.session && d.g.generation == s.c.g.generation
    requires d.g.on ==> s.c.g.on && d.leaseAt == s.c.leaseAt
    requires FreshNonce(s, d.g.nonce)
    ensures Inv(env, s.(now := t, c := d, issues := s.issues[CtxOf(d.g) := Issued(t, |s.grants|)]))
  {
    var used, y := Epoch.Used(s.flash), CtxOf(d.g);
    AdvanceKeepsIssues(env.dev, s.now, t, used, s.c, d, s.issues, |s.grants|);
    AdvanceKeepsAccepts(s.now, t, used, s.c, d, env.dev, s.issues, s.grants, s.accepts);
    NewChallengeKeepsPeople(env, s, t, y, Issued(t, |s.grants|));
  }

  // ---- an accepted frame ----

  /** Backed bytes are those of the very claim the guard checked. */
  lemma BackedClaim(env: Env, s: System, g: State, f: Frame, k: nat)
    requires GrantsOk(env, s.now, s.issues, s.grants, s.parties) && f.Shaped()
    requires Backed(s.grants, k, f.op, g.session, CheckedBytes(env.dev, g, f))
    ensures A.Context(s.grants[k].request) && A.ClaimFor(s.grants[k].request) == ClaimOf(env.dev, g, f)
    ensures s.grants[k].op == f.op
  {
    var signed := s.grants[k];
    assert SignedOk(env, s.now, s.issues, s.parties, signed, k);
    if f.op.Bind? {
      BindBytesInjective(A.ClaimFor(signed.request), signed.ephemeral, env.config.controller,
                         ClaimOf(env.dev, g, f), f.peer, env.dev.controller);
    } else {
      LedBytesInjective(A.ClaimFor(signed.request), ClaimOf(env.dev, g, f));
    }
  }

  /** The grant behind a frame that is accepted now came after the issue of the
      current challenge, and after every grant used before. */
  lemma GrantIsLater(env: Env, s: System, p: Clocked, f: Frame, k: nat)
    requires GrantsOk(env, s.now, s.issues, s.grants, s.parties) && f.Shaped() && p.g.generation != 0
    requires IssuesOk(env.dev, s.now, Epoch.Used(s.flash), p, s.issues, |s.grants|)
    requires Backed(s.grants, k, f.op, p.g.session, CheckedBytes(env.dev, p.g, f))
    ensures s.grants[k].op == f.op && p.issuedAt <= s.grants[k].begun <= s.grants[k].done <= s.now
    ensures s.issues[CtxOf(p.g)].grants <= k
    ensures var m := s.grants[k].request;
            m.Request? && m.epoch == p.g.epoch && m.generation == f.generation && m.sequence + 1 == f.sequence
  {
    BackedClaim(env, s, p.g, f, k);
    assert SignedOk(env, s.now, s.issues, s.parties, s.grants[k], k);
    assert A.Key16(s.grants[k].request.nonce) == p.g.nonce == CtxNonce(env.dev, CtxOf(p.g));
  }

  lemma GrantAdvances(dev: Device, p: Clocked, q: Clocked, e: Arrival, f: Frame)
    requires e.Byte? && ByteStep(dev, p, q, e, Grants(f)) && Latched(p.g)
    ensures Advances(dev, p, q) && q.g.sequence == p.g.sequence + 1 == f.sequence && q.g.generation == p.g.generation
    ensures f.generation == p.g.generation && f.Shaped() && p.g.generation != 0
    ensures q.g.bound && (q.g.on ==> f.op.Run? && q.leaseAt == p.issuedAt)
    ensures q.g.session == if f.op.Bind? then CheckedBytes(dev, p.g, f) else p.g.session
  {
    assert CheckedBytes(dev, p.g.(line := ""), f) == CheckedBytes(dev, p.g, f);
  }

  lemma AppendAccept(now: int, used: nat, c: Clocked, issues: map<Ctx, Issued>, grants: seq<Signed>,
                     accepts: seq<Accepted>, a: Accepted)
    requires AcceptsOk(now, used, c, issues, grants, accepts) && AcceptOk(now, used, c, issues, grants, a)
    requires forall i :: 0 <= i < |accepts| ==> accepts[i].grant < a.grant && Above(a, accepts[i])
    ensures AcceptsOk(now, used, c, issues, grants, accepts + [a])
  {
  }

  lemma EarlierAcceptsAreBelow(now: int, used: nat, c: Clocked, issues: map<Ctx, Issued>, grants: seq<Signed>,
                               accepts: seq<Accepted>, a: Accepted)
    requires AcceptsOk(now, used, c, issues, grants, accepts) && c.g.ready && c.g.generation != 0
             && CtxOf(c.g) in issues
    requires a.epoch == c.g.epoch && a.generation == c.g.generation && a.sequence == c.g.sequence + 1
    requires issues[CtxOf(c.g)].grants <= a.grant
    ensures forall i :: 0 <= i < |accepts| ==> accepts[i].grant < a.grant && Above(a, accepts[i])
  {
    forall i | 0 <= i < |accepts|
      ensures accepts[i].grant < a.grant && Above(a, accepts[i])
    {
      assert AcceptOk(now, used, c, issues, grants, accepts[i]);
    }
  }

  lemma AcceptKeepsInv(env: Env, s: System, e: Arrival, k: nat, q: Clocked, f: Frame)
    requires Inv(env, s) && e.Byte? && s.c.last == e.t <= s.now <= e.after && Near(e.t, e.after)
    requires ByteStep(env.dev, s.c, q, e, Grants(f)) && f.Shaped()
    requires Backed(s.grants, k, f.op, s.c.g.session, CheckedBytes(env.dev, s.c.g, f))
    requires FreshNonce(s, q.g.nonce)
    ensures Inv(env, WithEffect(env.dev, s, e, k, s.c, q, Grants(f)))
  {
    var t := e.after;
    ByteStepKeepsTime(env.dev, s.c, q, e, Grants(f));
    GrantAdvances(env.dev, s.c, q, e, f);
    AdvanceKeepsIssues(env.dev, s.now, t, Epoch.Used(s.flash), s.c, q, s.issues, |s.grants|);
    NewChallengeKeepsPeople(env, s, t, CtxOf(q.g), Issued(t, |s.grants|));
    AcceptIsRecorded(env, s, e, k, q, f);
  }

  /** The new acceptance is justified, above all earlier ones, and linked to the
      guard's session. */
  lemma AcceptIsRecorded(env: Env, s: System, e: Arrival, k: nat, q: Clocked, f: Frame)
    requires Inv(env, s) && e.Byte? && s.c.last == e.t <= s.now <= e.after && Near(e.t, e.after)
    requires ByteStep(env.dev, s.c, q, e, Grants(f)) && f.Shaped()
    requires Backed(s.grants, k, f.op, s.c.g.session, CheckedBytes(env.dev, s.c.g, f))
    ensures var a := AcceptedBy(env.dev, s.c, f, e.after, k);
            Linked(q, a)
            && AcceptsOk(e.after, Epoch.Used(s.flash), q, s.issues[CtxOf(q.g) := Issued(e.after, |s.grants|)], s.grants,
                         s.accepts + [a])
  {
    var used, p, t := Epoch.Used(s.flash), s.c, e.after;
    ByteStepKeepsTime(env.dev, p, q, e, Grants(f));
    GrantAdvances(env.dev, p, q, e, f);
    GrantIsLater(env, s, p, f, k);
    var a := AcceptedBy(env.dev, p, f, t, k);
    EarlierAcceptsAreBelow(s.now, used, p, s.issues, s.grants, s.accepts, a);
    AdvanceKeepsAccepts(s.now, t, used, p, q, env.dev, s.issues, s.grants, s.accepts);
    assert SignedOk(env, s.now, s.issues, s.parties, s.grants[k], k);
    AppendAccept(t, used, q, s.issues[CtxOf(q.g) := Issued(t, |s.grants|)], s.grants, s.accepts, a);
  }
}
