/** The relay's side of the wire: the frames it prints, the replies it reads, and
    the context it keeps. It holds no key. */
module Relay {
  import opened Bytes
  import opened Text
  import opened Frames
  import opened Lines
  import G = Guard
  import A = Authorizer

  // ---- frames ----

  /** `frame`: the line for an approved request, or None where it raises. */
  function FrameText(m: A.Request, tag: string, duration: int, ephemeral: Option<string>): Option<string> {
    if !A.Context(m) then None
    else if Unhex(tag, if m.op == "BIND" then 64 else 32).None? then None
    else if m.op == "BIND" && (duration != 0 || ephemeral.None? || Unhex(ephemeral.value, 32).None?) then None
    else if m.op != "BIND" && !(1 <= duration <= 200) then None
    else Some(Join(["H2", m.op, Dec(m.generation), Dec(m.sequence + 1), Dec(m.challenge), Dec(m.issued), Dec(duration)]
                   + (if m.op == "BIND" then [ephemeral.value] else []) + [tag]))
  }

  function FrameFor(m: A.Request, tag: seq<byte>, duration: u32, peer: seq<byte>): Frame
    requires A.Context(m)
  {
    Frame(A.OpOf(m), m.generation, m.sequence + 1, m.challenge, m.issued, duration, peer, tag)
  }

  /** What `frame` prints for any valid context fits the controller's line, uses
      only characters it takes, and is read back as exactly the printed fields. */
  lemma FrameIsReadBack(m: A.Request, tag: string, duration: int, ephemeral: Option<string>)
    requires FrameText(m, tag, duration, ephemeral).Some?
    ensures var text, f := FrameText(m, tag, duration, ephemeral).value,
                           FrameFor(m, Unhex(tag, if m.op == "BIND" then 64 else 32).value, duration,
                                    if m.op == "BIND" then Unhex(ephemeral.value, 32).value else []);
            f.Shaped() && text == Print(f) && Parse(text) == Some(f) && 0 < |text| <= 247 < G.FRAME_SIZE - 1
            && Plain(text)
  {
    var bind := m.op == "BIND";
    var sig := Unhex(tag, if bind then 64 else 32).value;
    UnhexAcceptsExactlyHex(tag, if bind then 64 else 32, sig);
    var peer := if bind then Unhex(ephemeral.value, 32).value else [];
    if bind { UnhexAcceptsExactlyHex(ephemeral.value, 32, peer); }
    var f := FrameFor(m, sig, duration, peer);
    assert OpText(f.op) == m.op;
    FrameTextIsPrint(m, tag, duration, ephemeral, f);
    ParsePrint(f);
    PrintFits(f);
    PrintPlain(f);
    PrintNotEmpty(f);
  }

  lemma FrameTextIsPrint(m: A.Request, tag: string, duration: int, ephemeral: Option<string>, f: Frame)
    requires FrameText(m, tag, duration, ephemeral).Some? && 0 <= duration < TWO32
    requires f == FrameFor(m, f.tag, duration, f.peer) && OpText(f.op) == m.op && tag == Hex(f.tag)
    requires m.op == "BIND" ==> ephemeral.value == Hex(f.peer)
    ensures FrameText(m, tag, duration, ephemeral).value == Print(f)
  {
    var head := ["H2", m.op, Dec(m.generation), Dec(m.sequence + 1), Dec(m.challenge), Dec(m.issued), Dec(duration)];
    assert head == ["H2", OpText(f.op)] + NumberFields(f);
    assert f.op.Bind? <==> m.op == "BIND";
    assert head + (if m.op == "BIND" then [ephemeral.value] else []) + [tag] == PrintFields(f);
  }

  lemma PrintNotEmpty(f: Frame)
    ensures |Print(f)| > 0
  {
    JoinLength(PrintFields(f));
  }

  // ---- replies ----

  function StateText(g: G.State): string {
    if g.on then "ON" else if g.armed then "ARMED" else if g.bound then "BOUND" else "LOCKED"
  }

  function ReasonText(r: G.Reason): string {
    match r
    case Boot => "boot" case Provision => "provision" case Stopped => "stop" case Greeted => "hello"
    case Exhausted => "exhausted" case Protocol => "protocol" case Replay => "replay" case Unarmed => "unarmed"
    case Stale => "stale" case Signature => "signature" case LeaseOver => "lease" case Partial => "partial"
    case NowBound => "bound" case NowArmed => "armed" case Running => "run" case Transmit => "tx"
  }

  function ReplyCounters(g: G.State): seq<string> {
    [Dec(g.epoch), Dec(g.generation), Dec(g.sequence), Dec(g.challenge), Dec(g.issued)]
  }

  function ReplyFields(dev: G.Device, g: G.State): seq<string> {
    ["H2", if g.ok then "OK" else "ERR", Hex(dev.install)] + ReplyCounters(g)
    + [Hex(g.nonce), StateText(g), ReasonText(g.reason)]
  }

  /** `reply`, without its line feed. */
  function ReplyText(dev: G.Device, g: G.State): string { Join(ReplyFields(dev, g)) }

  /** `0|[1-9][0-9]{0,9}` */
  predicate Counter(s: string) { Canonical(s) && |s| <= 10 }

  function ReadCounter(s: string): int
    requires Counter(s)
  {
    Value(s)
  }

  /** `wire`: the context in a reply line and the state it names, or None where
      the relay raises LinkError. */
  function ReadReply(install: string, line: string): Option<(A.Request, string)> {
    var fs := Split(line);
    if !Ascii(line) || |fs| != 11 || fs[0] != "H2" || fs[1] != "OK" || fs[2] != install then None
    else if !(Counter(fs[3]) && Counter(fs[4]) && Counter(fs[5]) && Counter(fs[6]) && Counter(fs[7])) then None
    else if Unhex(fs[8], 16).None? || fs[9] !in {"LOCKED", "BOUND", "ARMED", "ON"} then None
    else
      var m := A.Request(install, ReadCounter(fs[3]), ReadCounter(fs[4]), ReadCounter(fs[5]), ReadCounter(fs[6]),
                         ReadCounter(fs[7]), fs[8], "RUN");
      if A.Context(m) then Some((m, fs[9])) else None
  }

  /** The controller's context as a request. */
  function ContextOf(dev: G.Device, g: G.State, op: string): A.Request {
    A.Request(Hex(dev.install), g.epoch, g.generation, g.sequence, g.challenge, g.issued, Hex(g.nonce), op)
  }

  /** A controller that has greeted and has numbers left. */
  predicate Talking(g: G.State) {
    g.ok && g.epoch != 0 && g.generation != 0 && g.challenge != 0 && g.sequence != G.MAX32
  }

  lemma ReplyCountersRead(g: G.State)
    ensures var c := ReplyCounters(g);
            SpaceFree(c) && forall i :: 0 <= i < 5 ==> Counter(c[i])
    ensures var c := ReplyCounters(g);
            ReadCounter(c[0]) == g.epoch && ReadCounter(c[1]) == g.generation && ReadCounter(c[2]) == g.sequence
            && ReadCounter(c[3]) == g.challenge && ReadCounter(c[4]) == g.issued
  {
    CounterIsRead(g.epoch);
    CounterIsRead(g.generation);
    CounterIsRead(g.sequence);
    CounterIsRead(g.challenge);
    CounterIsRead(g.issued);
  }

  lemma CounterIsRead(n: u32)
    ensures Counter(Dec(n)) && ReadCounter(Dec(n)) == n && ' ' !in Dec(n)
  {
    DecIsCanonical(n);
    Dec32Length(n);
  }

  lemma ReplyWordsAreSpaceFree(g: G.State)
    ensures ' ' !in StateText(g) && ' ' !in ReasonText(g.reason) && |StateText(g)| <= 6 && |ReasonText(g.reason)| <= 9
    ensures StateText(g) in {"LOCKED", "BOUND", "ARMED", "ON"}
  {
  }

  lemma ReplyFieldsSpaceFree(dev: G.Device, g: G.State)
    ensures SpaceFree(ReplyFields(dev, g))
  {
    ReplyCountersRead(g);
    ReplyWordsAreSpaceFree(g);
    HexShape(dev.install);
    HexShape(g.nonce);
    var head, tail := ["H2", if g.ok then "OK" else "ERR", Hex(dev.install)],
                      [Hex(g.nonce), StateText(g), ReasonText(g.reason)];
    assert ' ' !in "H2" && ' ' !in "OK" && ' ' !in "ERR";
    assert SpaceFree(head) && SpaceFree(tail);
  }

  lemma ContextIsValid(dev: G.Device, g: G.State, op: string)
    requires Talking(g) && op in {"BIND", "ARM", "RUN"}
    ensures A.Context(ContextOf(dev, g, op))
  {
    HexShape(dev.install);
    HexShape(g.nonce);
  }

  /** A reply uses at most 144 characters, none of them a line feed. */
  lemma ReplyFits(dev: G.Device, g: G.State)
    ensures |ReplyText(dev, g)| <= 144 && Plain(ReplyText(dev, g)) && '\n' !in ReplyText(dev, g)
  {
    ReplyPlain(dev, g);
    ReplyWordsAreSpaceFree(g);
    HexShape(dev.install);
    HexShape(g.nonce);
    var fs, tail := ReplyFields(dev, g), ReplyCounters(g) + [Hex(g.nonce), StateText(g), ReasonText(g.reason)];
    JoinLength(fs);
    JoinLength(fs[1..]);
    JoinLength(fs[1..][1..]);
    assert fs[1..][1..][1..] == tail;
    ReplyCountersRead(g);
    CountersFit(ReplyCounters(g), [Hex(g.nonce), StateText(g), ReasonText(g.reason)]);
    WordsFit(Hex(g.nonce), StateText(g), ReasonText(g.reason));
  }

  lemma WordsFit(a: string, b: string, c: string)
    ensures |Join([a, b, c])| == |a| + |b| + |c| + 2
  {
    JoinLength([a, b, c]);
    assert [a, b, c][1..] == [b, c];
    JoinLength([b, c]);
    assert [b, c][1..] == [c];
  }

  /** Printed counters take at most eleven characters each, with their space. */
  lemma {:induction false} CountersFit(counters: seq<string>, rest: seq<string>)
    requires rest != [] && forall i :: 0 <= i < |counters| ==> |counters[i]| <= 10
    ensures |Join(counters + rest)| <= 11 * |counters| + |Join(rest)|
  {
    var fs := counters + rest;
    if counters == [] {
      assert fs == rest;
    } else {
      JoinLength(fs);
      assert fs[1..] == counters[1..] + rest;
      CountersFit(counters[1..], rest);
    }
  }

  lemma ReplyPlain(dev: G.Device, g: G.State)
    ensures Plain(ReplyText(dev, g))
  {
    ReplyWordsArePlain(g);
    HexShape(dev.install);
    HexShape(g.nonce);
    CountersPlain(g);
    var head, tail := ["H2", if g.ok then "OK" else "ERR", Hex(dev.install)],
                      [Hex(g.nonce), StateText(g), ReasonText(g.reason)];
    assert AllPlain(head) && AllPlain(tail);
    assert AllPlain(ReplyFields(dev, g));
    JoinPlain(ReplyFields(dev, g));
  }

  lemma ReplyIsAscii(dev: G.Device, g: G.State)
    ensures Ascii(ReplyText(dev, g))
  {
    ReplyPlain(dev, g);
  }

  lemma CountersPlain(g: G.State)
    ensures AllPlain(ReplyCounters(g))
  {
    DecPlain(g.epoch);
    DecPlain(g.generation);
    DecPlain(g.sequence);
    DecPlain(g.challenge);
    DecPlain(g.issued);
  }

  lemma ReasonIsPlain(r: G.Reason)
    ensures Plain(ReasonText(r))
  {
  }

  lemma ReplyWordsArePlain(g: G.State)
    ensures Plain(StateText(g)) && Plain(ReasonText(g.reason)) && Plain("H2") && Plain("OK") && Plain("ERR")
  {
    ReasonIsPlain(g.reason);
  }

  /** After every OK reply the relay's context is exactly the controller's. */
  lemma ReplyIsReadBack(dev: G.Device, g: G.State)
    requires Talking(g)
    ensures ReadReply(Hex(dev.install), ReplyText(dev, g)) == Some((ContextOf(dev, g, "RUN"), StateText(g)))
  {
    var fs := ReplyFields(dev, g);
    ReplyFieldsSpaceFree(dev, g);
    JoinThenSplit(fs);
    ReplyCountersRead(g);
    ReplyWordsAreSpaceFree(g);
    UnhexAcceptsExactlyHex(Hex(g.nonce), 16, g.nonce);
    ContextIsValid(dev, g, "RUN");
    ReplyIsAscii(dev, g);
    var c := ReplyCounters(g);
    assert fs[3] == c[0] && fs[4] == c[1] && fs[5] == c[2] && fs[6] == c[3] && fs[7] == c[4];
  }

  /** One exchange on the port: whether the line could be written in time, and the
      chunks read until the deadline. */
  datatype Echo = Echo(written: bool, chunks: seq<string>)

  const LIMIT: nat := 160

  /** `wire`'s verdict on what it reads: one line within the limit, and nothing
      after it. */
  function ReadEcho(install: string, echo: Echo): Option<(A.Request, string)> {
    if !echo.written then None else
    var (got, complete) := Gather(LIMIT, "", echo.chunks);
    if !complete then None else
    GatherCompletes(LIMIT, "", echo.chunks);
    if got[LineFeed(got) + 1..] != "" then None else ReadReply(install, got[..LineFeed(got)])
  }

  /** A reply is read whole, in whatever chunks it arrives. */
  lemma ReplyIsHeard(dev: G.Device, g: G.State, chunks: seq<string>)
    requires Arriving(chunks, ReplyText(dev, g))
    ensures ReadEcho(Hex(dev.install), Echo(true, chunks)) == ReadReply(Hex(dev.install), ReplyText(dev, g))
    ensures Talking(g) ==>
              ReadEcho(Hex(dev.install), Echo(true, chunks)) == Some((ContextOf(dev, g, "RUN"), StateText(g)))
  {
    ReplyFits(dev, g);
    assert "" + Concat(chunks) == Concat(chunks);
    GatherWhole(LIMIT, "", chunks, ReplyText(dev, g));
    FeedAtEnd(ReplyText(dev, g));
    if Talking(g) { ReplyIsReadBack(dev, g); }
  }

  /** The authorizer's answer as decoded: `exact` says whether its keys are the
      four (or, with an ephemeral key, five) expected ones. */
  datatype SignedPermit = SignedPermit(exact: bool, kind: string, signature: string, duration: int,
                                       ephemeral: Option<string>)

  predicate WellFormed(permit: SignedPermit, op: string) {
    permit.exact && (permit.ephemeral.Some? <==> op == "BIND") && permit.kind == "permit"
    && permit.duration == if op == "BIND" then 0 else 200
  }

  /** The line that `execute` sends, if it sends one. */
  function Sends(request: A.Request, permit: SignedPermit): Option<string>
    requires request.Request?
  {
    if !WellFormed(permit, request.op) then None
    else FrameText(request, permit.signature, permit.duration, permit.ephemeral)
  }

  /** The relay's link object. A raised exception is the answer None. */
  class PermitLink {
    const install: string
    var current: Option<A.Request>

    constructor (install: string)
      ensures this.install == install && current == None
    {
      this.install := install;
      current := None;
    }

    /** `wire`: the context changes exactly with a valid reply. */
    method Wire(echo: Echo) returns (state: Option<string>)
      modifies this
      ensures var read := ReadEcho(install, echo);
              if read.Some? then state == Some(read.value.1) && current == Some(read.value.0)
              else state == None && current == old(current)
    {
      if !echo.written { return None; }
      var got, complete := ReadLine(LIMIT, "", echo.chunks);
      if !complete { return None; }
      var line, rest := got[..LineFeed(got)], got[LineFeed(got) + 1..];
      if rest != "" { return None; }
      var read := ReadReply(install, line);
      if read.None? { return None; }
      current := Some(read.value.0);
      return Some(read.value.1);
    }

    /** `query`: HELLO must lock and reset, STOP must lock, and only HELLO may
        change the session under the relay; no other word is ever sent. */
    method Query(op: string, echo: Echo) returns (state: Option<string>)
      modifies this
      ensures state == if op in QUERIES then QueryAnswer(ReadEcho(install, echo), old(current), op) else None
      ensures current == if op in QUERIES && ReadEcho(install, echo).Some? then Some(ReadEcho(install, echo).value.0)
                         else old(current)
    {
      if op !in QUERIES { return None; }
      var previous := current;
      state := Wire(echo);
      if state.None? { return None; }
      if op == "HELLO" && (state.value != "LOCKED" || current.value.sequence != 0) { return None; }
      if op == "STOP" && state.value != "LOCKED" { return None; }
      if previous.Some? && op != "HELLO" && !SameSession(previous.value, current.value) { return None; }
    }

    /** `execute`: a well-formed permit is sent as its frame, and the
        acknowledgement must be the very next number. */
    method Execute(request: A.Request, permit: SignedPermit, echo: Echo) returns (sent: Option<string>, done: bool)
      requires request.Request?
      modifies this
      ensures sent == Sends(request, permit)
      ensures done <==> sent.Some? && Acknowledges(ReadEcho(install, echo), request)
      ensures current == if sent.Some? && ReadEcho(install, echo).Some? then Some(ReadEcho(install, echo).value.0)
                         else old(current)
    {
      var binding := request.op == "BIND";
      if !permit.exact || permit.ephemeral.Some? != binding || permit.kind != "permit"
         || permit.duration != (if binding then 0 else 200) {
        return None, false;
      }
      sent := FrameText(request, permit.signature, permit.duration, permit.ephemeral);
      if sent.None? { return None, false; }
      var state := Wire(echo);
      if state.None? || state.value != StateAfter(request.op) { return sent, false; }
      var now := current.value;
      return sent, now.sequence == request.sequence + 1 && now.challenge == request.challenge + 1
                   && now.epoch == request.epoch && now.generation == request.generation;
    }
  }

  const QUERIES: set<string> := {"HELLO", "STATUS", "STOP"}

  predicate SameSession(a: A.Request, b: A.Request) {
    a.Request? && b.Request? && a.epoch == b.epoch && a.generation == b.generation && a.sequence == b.sequence
  }

  function QueryAnswer(read: Option<(A.Request, string)>, previous: Option<A.Request>, op: string): Option<string> {
    match read
    case None => None
    case Some((m, state)) =>
      if !m.Request? || (op == "HELLO" && (state != "LOCKED" || m.sequence != 0)) then None
      else if op == "STOP" && state != "LOCKED" then None
      else if previous.Some? && op != "HELLO" && !SameSession(previous.value, m) then None
      else Some(state)
  }

  function StateAfter(op: string): string {
    if op == "BIND" then "BOUND" else if op == "ARM" then "ARMED" else "ON"
  }

  predicate Acknowledges(read: Option<(A.Request, string)>, request: A.Request)
    requires request.Request?
  {
    match read
    case None => false
    case Some((m, state)) =>
      m.Request? && state == StateAfter(request.op) && m.sequence == request.sequence + 1
      && m.challenge == request.challenge + 1 && m.epoch == request.epoch && m.generation == request.generation
  }
}
