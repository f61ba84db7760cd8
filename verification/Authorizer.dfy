/** The trusted operator session: one gate cycle per request, at most one permit
    per sequence number, and a lock that nothing undoes. */
module Authorizer {
  import opened Bytes
  import opened Text
  import opened Payload
  import opened Frames
  import G = Guard

  /** A decoded request. `Malformed` stands for wrong field names or types. */
  datatype Request =
    | Malformed
    | Request(install: string, epoch: int, generation: int, sequence: int, challenge: int, issued: int,
              nonce: string, op: string)

  predicate Is32(x: int) { 0 <= x < TWO32 }

  /** `context`: the checks every request passes before anything else. */
  predicate Context(m: Request) {
    m.Request? && |m.install| == 32 && AllHex(m.install) && |m.nonce| == 32 && AllHex(m.nonce)
    && Is32(m.epoch) && Is32(m.generation) && Is32(m.sequence) && Is32(m.challenge) && Is32(m.issued)
    && m.epoch != 0 && m.generation != 0 && m.challenge != 0 && m.sequence != 0xffff_ffff
    && m.op in {"BIND", "ARM", "RUN"}
  }

  function OpOf(m: Request): Op
    requires Context(m)
  {
    if m.op == "BIND" then Bind else if m.op == "ARM" then Arm else Run
  }

  function Key16(s: string): Bytes16
    requires |s| == 32 && AllHex(s)
  {
    Bytes2Shape(s);
    Bytes2(s)
  }

  /** The claim a permit for this request makes: it grants the next number. */
  function ClaimFor(m: Request): Claim
    requires Context(m)
  {
    Claim(Key16(m.install), m.epoch, m.generation, m.sequence + 1, m.challenge, m.issued,
          if m.op == "BIND" then 0 else 200, G.Action(OpOf(m)), Key16(m.nonce))
  }

  datatype Config = Config(install: string, controller: Bytes32)

  datatype State = State(locked: bool, binding: Option<(int, int)>, sequence: int, challenge: int,
                         session: seq<byte>, armedAuthorized: bool)

  const FRESH: State := State(false, None, 0, 0, [], false)

  /** What the checks before the gate cycle decide. */
  datatype Admission = Refused | KeyExchange | Gated

  function Admit(config: Config, a: State, m: Request): Admission {
    if !Context(m) || a.locked || m.install != config.install then Refused
    else if a.binding.None? then if m.op != "BIND" || m.sequence != 0 then Refused else KeyExchange
    else if a.binding.value != (m.epoch, m.generation) then Refused
    else if m.op != (if a.armedAuthorized then "RUN" else "ARM") then Refused
    else if m.sequence != a.sequence || m.challenge <= a.challenge then Refused
    else Gated
  }

  /** How the rest of the call goes: the gate's verdict, or any exception. For a
      key exchange only `Allowed` and `Raised` make sense, and `ephemeral` is the
      new public key. */
  datatype Outcome = Allowed(ephemeral: Bytes32) | Denied | Late | OperatorDone | Raised

  datatype Answer = Terminal | Permit(op: Op, claim: Claim, bytes: seq<byte>)

  /** The state while the call is running, before its outcome is known. */
  function Begun(config: Config, a: State, m: Request): State {
    match Admit(config, a, m)
    case Refused => a.(locked := true)
    case KeyExchange => a.(binding := Some((m.epoch, m.generation)))
    case Gated => a
  }

  function Finished(config: Config, a: State, m: Request, admission: Admission, outcome: Outcome): (State, Answer)
    requires admission != Refused ==> Context(m)
    requires admission == KeyExchange ==> m.op == "BIND"
  {
    if admission.Refused? || !outcome.Allowed? then (a.(locked := true), Terminal)
    else if admission.KeyExchange? then
      var bytes := BindBytes(ClaimFor(m), outcome.ephemeral, config.controller);
      (a.(session := bytes, sequence := 1, challenge := m.challenge), Permit(Bind, ClaimFor(m), bytes))
    else
      (a.(sequence := m.sequence + 1, challenge := m.challenge, armedAuthorized := true),
       Permit(OpOf(m), ClaimFor(m), LedBytes(ClaimFor(m))))
  }

  /** `approve`: one request, one answer. */
  function Approve(config: Config, a: State, m: Request, outcome: Outcome): (State, Answer) {
    Finished(config, Begun(config, a, m), m, Admit(config, a, m), outcome)
  }

  class Session {
    const config: Config
    var locked: bool
    var binding: Option<(int, int)>
    var sequence: int
    var challenge: int
    var session: seq<byte>
    var armedAuthorized: bool

    ghost function Model(): State
      reads this
    {
      State(locked, binding, sequence, challenge, session, armedAuthorized)
    }

    constructor (config: Config)
      ensures this.config == config && Model() == FRESH
    {
      this.config := config;
      locked, binding, sequence, challenge, session, armedAuthorized := false, None, 0, 0, [], false;
    }

    /** `outcome` is what the gate, the clock and the key library did. */
    method ApproveRequest(m: Request, outcome: Outcome) returns (answer: Answer)
      modifies this
      ensures (Model(), answer) == Approve(config, old(Model()), m, outcome)
    {
      if !Context(m) || locked || m.install != config.install {
        locked := true;
        return Terminal;
      }
      if binding.None? {
        if m.op != "BIND" || m.sequence != 0 {
          locked := true;
          return Terminal;
        }
        binding := Some((m.epoch, m.generation));
        if !outcome.Allowed? {
          locked := true;
          return Terminal;
        }
        session := BindBytes(ClaimFor(m), outcome.ephemeral, config.controller);
        sequence, challenge := 1, m.challenge;
        return Permit(Bind, ClaimFor(m), session);
      }
      if binding.value != (m.epoch, m.generation) || m.op != (if armedAuthorized then "RUN" else "ARM")
         || m.sequence != sequence || m.challenge <= challenge || !outcome.Allowed? {
        locked := true;
        return Terminal;
      }
      sequence, challenge := m.sequence + 1, m.challenge;
      armedAuthorized := true;
      return Permit(OpOf(m), ClaimFor(m), LedBytes(ClaimFor(m)));
    }
  }

  // ---- whole sessions ----

  datatype Call = Call(request: Request, outcome: Outcome)

  function After(config: Config, calls: seq<Call>): State {
    if calls == [] then FRESH else
    var n := |calls| - 1;
    Approve(config, After(config, calls[..n]), calls[n].request, calls[n].outcome).0
  }

  function Permits(config: Config, calls: seq<Call>): seq<Answer> {
    if calls == [] then [] else
    var n := |calls| - 1;
    var answer := Approve(config, After(config, calls[..n]), calls[n].request, calls[n].outcome).1;
    Permits(config, calls[..n]) + (if answer.Permit? then [answer] else [])
  }

  /** The permits of a session so far: number k grants sequence k + 1, with BIND,
      ARM, RUN, RUN, ... in that order, one controller session throughout, and
      ever larger challenges. */
  ghost predicate Ordered(a: State, permits: seq<Answer>) {
    && (forall k :: 0 <= k < |permits| ==>
          permits[k].Permit? && permits[k].claim.sequence == k + 1
          && permits[k].op == (if k == 0 then Bind else if k == 1 then Arm else Run)
          && a.binding == Some((permits[k].claim.epoch, permits[k].claim.generation))
          && permits[k].claim.challenge <= a.challenge)
    && (forall j, k :: 0 <= j < k < |permits| ==> permits[j].claim.challenge < permits[k].claim.challenge)
    && a.sequence == |permits|
    && (a.armedAuthorized <==> |permits| >= 2)
    && (a.binding.Some? && |permits| == 0 ==> a.locked)
    && (a.binding.None? ==> |permits| == 0)
  }

  lemma ApproveKeepsOrder(config: Config, a: State, permits: seq<Answer>, c: Call)
    requires Ordered(a, permits)
    ensures var (b, answer) := Approve(config, a, c.request, c.outcome);
            Ordered(b, permits + (if answer.Permit? then [answer] else []))
    ensures a.locked ==> Approve(config, a, c.request, c.outcome) == (a, Terminal)
    ensures Approve(config, a, c.request, c.outcome).1.Terminal? ==> Approve(config, a, c.request, c.outcome).0.locked
  {
  }

  /** Over every sequence of requests and gate outcomes: one permit per sequence
      number, in order, and none after the first refusal, denial or failure. */
  lemma {:induction false} OnePermitPerSequence(config: Config, calls: seq<Call>)
    ensures Ordered(After(config, calls), Permits(config, calls))
    ensures !After(config, calls).locked <==> |Permits(config, calls)| == |calls|
  {
    if calls != [] {
      var n := |calls| - 1;
      OnePermitPerSequence(config, calls[..n]);
      AtMostOnePermitPerCall(config, calls[..n]);
      ApproveKeepsOrder(config, After(config, calls[..n]), Permits(config, calls[..n]), calls[n]);
    }
  }

  lemma {:induction false} AtMostOnePermitPerCall(config: Config, calls: seq<Call>)
    ensures |Permits(config, calls)| <= |calls|
  {
    if calls != [] { AtMostOnePermitPerCall(config, calls[..|calls| - 1]); }
  }
}
