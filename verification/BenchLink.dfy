/** The bench link: the host's client of the bench guard, and their lockstep. */
module BenchLink {
  import opened Bytes
  import opened Text
  import opened Frames
  import opened Lines
  import B = Bench

  const NAMES: set<string> := {"HELLO", "ARM", "RUN", "STOP", "STATUS"}

  /** What the host keeps between exchanges. */
  datatype Client = Client(session: string, seq_: int, challenge: int)

  function Sequence(c: Client, op: string): int { if op == "HELLO" then 0 else c.seq_ + 1 }
  function Token(c: Client, op: string): int { if op == "HELLO" then 0 else c.challenge }
  function Expected(c: Client, op: string): int { if op == "HELLO" then 1 else c.challenge + 1 }

  function RequestFields(c: Client, op: string): seq<string>
    requires c.seq_ >= 0 && c.challenge >= 0
  {
    ["H1", op, c.session, Dec(Sequence(c, op)), Dec(Token(c, op))]
  }

  /** The request line, without its line feed. */
  function Request(c: Client, op: string): string
    requires c.seq_ >= 0 && c.challenge >= 0
  {
    Join(RequestFields(c, op))
  }

  function Required(op: string): Option<string> {
    if op == "HELLO" then Some("LOCKED") else if op == "ARM" then Some("ARMED")
    else if op == "RUN" then Some("ON") else if op == "STOP" then Some("LOCKED") else None
  }

  /** The state that an acceptable answer names; None where the host raises. */
  function Answer(c: Client, op: string, line: string, rest: string): Option<string>
    requires c.seq_ >= 0 && c.challenge >= 0
  {
    var fs := Split(line);
    if !Ascii(line) || |fs| != 7 || fs[0] != "H1" || fs[1] != "OK" || fs[2] != c.session then None
    else if fs[3] != Dec(Sequence(c, op)) || fs[4] != Dec(Expected(c, op)) then None
    else if fs[5] !in {"ON", "ARMED", "LOCKED"} || rest != "" then None
    else if Required(op).Some? && fs[5] != Required(op).value then None
    else Some(fs[5])
  }

  // ---- reading ----

  const LIMIT: nat := 128

  /** What is kept between exchanges: the counters, and bytes not yet consumed. */
  datatype Host = Host(client: Client, buffer: string)

  /** `exchange`, given the chunks that arrive before the deadline. Bytes that an
      exchange leaves behind, also a failed one, are what the next one meets. */
  function Exchanged(h: Host, op: string, written: bool, chunks: seq<string>): (Host, Option<string>)
    requires h.client.seq_ >= 0 && h.client.challenge >= 0
  {
    if !written then (h, None) else
    var (got, complete) := Gather(LIMIT, h.buffer, chunks);
    if !complete then (Host(h.client, got), None) else
    GatherCompletes(LIMIT, h.buffer, chunks);
    var line, rest := got[..LineFeed(got)], got[LineFeed(got) + 1..];
    var answer := Answer(h.client, op, line, rest);
    (Host(if answer.Some? then Advanced(h.client, op) else h.client, rest), answer)
  }

  class SerialLink {
    var client: Client
    var buffer: string

    constructor (session: string)
      ensures client == Client(session, 0, 0) && buffer == ""
    {
      client, buffer := Client(session, 0, 0), "";
    }

    /** `written` is false when the request could not be written in time. */
    method Exchange(op: string, written: bool, chunks: seq<string>) returns (state: Option<string>)
      requires client.seq_ >= 0 && client.challenge >= 0
      modifies this
      ensures (Host(client, buffer), state) == Exchanged(old(Host(client, buffer)), op, written, chunks)
    {
      if !written { return None; }
      var complete;
      buffer, complete := ReadLine(LIMIT, buffer, chunks);
      if !complete { return None; }
      var line, rest := buffer[..LineFeed(buffer)], buffer[LineFeed(buffer) + 1..];
      buffer := rest;
      state := Check(op, line, rest);
      if state.Some? {
        client := Client(client.session, Sequence(client, op), Expected(client, op));
      }
    }

    method Check(op: string, line: string, rest: string) returns (state: Option<string>)
      requires client.seq_ >= 0 && client.challenge >= 0
      ensures state == Answer(client, op, line, rest)
    {
      var sequence, token := Sequence(client, op), Token(client, op);
      var fields := Split(line);
      var expected := if op == "HELLO" then 1 else token + 1;
      if !Ascii(line) || |fields| != 7 || fields[..3] != ["H1", "OK", client.session] || fields[3] != Dec(sequence)
         || fields[4] != Dec(expected) || fields[5] !in {"ON", "ARMED", "LOCKED"} || rest != "" {
        assert |fields| == 7 && fields[0] == "H1" && fields[1] == "OK" && fields[2] == client.session ==>
            fields[..3] == ["H1", "OK", client.session];
        return None;
      }
      assert fields[..3][0] == "H1" && fields[..3][1] == "OK" && fields[..3][2] == client.session;
      if Required(op).Some? && fields[5] != Required(op).value { return None; }
      return Some(fields[5]);
    }
  }

  function Advanced(c: Client, op: string): Client { Client(c.session, Sequence(c, op), Expected(c, op)) }

  // ---- the device's answer ----

  function StateText(g: B.State): string { if g.on then "ON" else if g.armed then "ARMED" else "LOCKED" }

  function ReasonText(r: B.Reason): string {
    match r
    case Boot => "boot" case Stopped => "stop" case Greeted => "hello" case Protocol => "protocol"
    case Replay => "replay" case Unarmed => "unarmed" case Stale => "stale" case LeaseOver => "lease"
    case Partial => "partial" case NowArmed => "armed" case Running => "run"
  }

  function ReplyFields(g: B.State): seq<string> {
    ["H1", if g.ok then "OK" else "ERR", g.session, Dec(g.sequence), Dec(g.challenge), StateText(g),
     ReasonText(g.reason)]
  }

  function ReplyText(g: B.State): string { Join(ReplyFields(g)) }

  predicate Session(s: string) { |s| == 16 && AllHex(s) }

  lemma HexHasNoSpace(s: string)
    requires AllHex(s)
    ensures ' ' !in s
  {
  }

  lemma ReplySplits(g: B.State)
    requires Session(g.session)
    ensures Split(ReplyText(g)) == ReplyFields(g)
  {
    HexHasNoSpace(g.session);
    DecIsCanonical(g.sequence);
    DecIsCanonical(g.challenge);
    WordsHaveNoSpace(g);
    assert ' ' !in "H1";
    JoinThenSplit(ReplyFields(g));
  }

  lemma WordsHaveNoSpace(g: B.State)
    ensures ' ' !in StateText(g) && ' ' !in ReasonText(g.reason) && ' ' !in (if g.ok then "OK" else "ERR")
  {
  }

  /** The device reads back exactly what the host printed. */
  lemma RequestIsRead(c: Client, op: string)
    requires Session(c.session) && op in NAMES && 0 <= c.seq_ < B.MAX32 && 0 <= c.challenge < TWO32
    ensures B.Parse(Request(c, op)) == Some(B.Order(op, c.session, Sequence(c, op), Token(c, op)))
  {
    HexHasNoSpace(c.session);
    DecIsCanonical(Sequence(c, op));
    DecIsCanonical(Token(c, op));
    assert SpaceFree(RequestFields(c, op));
    JoinThenSplit(RequestFields(c, op));
  }

  /** A request fits the device's line and uses only characters it takes. */
  lemma RequestFits(c: Client, op: string)
    requires Session(c.session) && op in NAMES && 0 <= c.seq_ < B.MAX32 && 0 <= c.challenge < TWO32
    ensures 0 < |Request(c, op)| <= 48 < B.FRAME_SIZE - 1 && Plain(Request(c, op))
  {
    var fs := RequestFields(c, op);
    Dec32Length(Sequence(c, op));
    Dec32Length(Token(c, op));
    JoinLength(fs);
    JoinLength(fs[1..]);
    JoinLength(fs[1..][1..]);
    JoinLength(fs[1..][1..][1..]);
    assert |op| <= 6;
    RequestPlain(c, op);
  }

  lemma RequestPlain(c: Client, op: string)
    requires Session(c.session) && op in NAMES && 0 <= c.seq_ < B.MAX32 && 0 <= c.challenge < TWO32
    ensures Plain(Request(c, op))
  {
    DecPlain(Sequence(c, op));
    DecPlain(Token(c, op));
    assert Plain("H1") && Plain(op) && Plain(c.session);
    JoinPlain(RequestFields(c, op));
  }

  // ---- lockstep ----

  /** The bytes of a line, each with its clock reading. */
  function FeedAll(g: B.State, line: string, nows: seq<u32>): B.State
    requires |line| <= |nows|
    decreases |line|
  {
    if line == "" then g else
    B.Feed(FeedAll(g, line[..|line| - 1], nows), line[|line| - 1], nows[|line| - 1])
  }

  predicate Arrives(g: B.State, first: u32, now: u32) {
    Since(now, first) < B.PARTIAL_MS && (g.armed ==> Since(now, g.renewed) < B.LEASE_MS)
  }

  ghost predicate Prompt(g: B.State, line: string, nows: seq<u32>) {
    line != "" && |nows| == |line| + 1 && forall i :: 0 <= i <= |line| ==> Arrives(g, nows[0], nows[i])
  }

  predicate Idle(g: B.State) { g.line == "" && !g.discard }

  lemma {:induction false} TypingFillsTheLine(g: B.State, line: string, typed: string, nows: seq<u32>)
    requires Idle(g) && Prompt(g, line, nows) && Plain(line) && |line| < B.FRAME_SIZE && typed <= line && typed != ""
    ensures FeedAll(g, typed, nows) == g.(line := typed, partialStarted := nows[0])
    decreases |typed|
  {
    var k := |typed| - 1;
    var before, c := typed[..k], typed[k];
    assert Arrives(g, nows[0], nows[k]);
    assert c == line[k];
    assert typed == before + [c];
    if k > 0 { TypingFillsTheLine(g, line, before, nows); }
    TypeOne(FeedAll(g, before, nows), c, nows[k], nows[0]);
  }

  lemma TypeOne(h: B.State, c: char, now: u32, first: u32)
    requires !h.discard && Arrives(h, first, now) && ' ' <= c <= '~' && |h.line| < B.FRAME_SIZE - 1
    requires if h.line == "" then now == first else h.partialStarted == first
    ensures B.Feed(h, c, now) == h.(line := h.line + [c], partialStarted := first)
  {
    assert B.Tick(h, now) == h;
  }

  function Delivered(g: B.State, line: string, nows: seq<u32>): B.State
    requires |nows| == |line| + 1
  {
    B.Feed(FeedAll(g, line, nows), '\n', nows[|line|])
  }

  lemma LineIsExecuted(g: B.State, line: string, nows: seq<u32>)
    requires Idle(g) && Prompt(g, line, nows) && Plain(line) && |line| < B.FRAME_SIZE
    ensures Delivered(g, line, nows) == B.Command(g.(partialStarted := nows[0]), line, nows[|line|])
  {
    TypingFillsTheLine(g, line, line, nows);
    assert Arrives(g, nows[0], nows[|line|]);
    var h := g.(line := line, partialStarted := nows[0]);
    assert B.Tick(h, nows[|line|]) == h;
    assert h.(line := "") == g.(partialStarted := nows[0]);
  }

  /** Host and device agree on session, number and challenge. */
  ghost predicate InStep(c: Client, g: B.State) {
    Session(c.session) && Idle(g) && B.Latched(g) && g.connected && g.session == c.session
    && g.sequence == c.seq_ && g.challenge == c.challenge && c.challenge >= 1
  }

  /** The device can obey: a new session, or a current one with numbers left, an
      operation its state allows, and for ARM and RUN a young challenge. */
  predicate Obeys(c: Client, g: B.State, op: string, now: u32) {
    if op == "HELLO" then !(g.connected && g.session == c.session)
    else op in NAMES && g.sequence != B.MAX32 && g.challenge != B.MAX32
         && (op == "ARM" ==> g.canArm) && (op == "RUN" ==> g.armed)
         && (op in {"ARM", "RUN"} ==> Since(now, g.issued) < B.CHALLENGE_MS)
  }

  lemma OrderInStep(c: Client, g: B.State, op: string, now: u32)
    requires Idle(g) && B.Latched(g) && Session(c.session) && 0 <= c.seq_ < B.MAX32 && 0 <= c.challenge < TWO32
    requires (op == "HELLO" || InStep(c, g)) && Obeys(c, g, op, now)
    ensures var h := B.Execute(g, B.Order(op, c.session, Sequence(c, op), Token(c, op)), now);
            InStep(Advanced(c, op), h) && h.ok && (Required(op).Some? ==> StateText(h) == Required(op).value)
  {
    B.ExecuteCases(g, B.Order(op, c.session, Sequence(c, op), Token(c, op)), now);
  }

  lemma ReplyIsAccepted(c: Client, g: B.State, op: string)
    requires InStep(Advanced(c, op), g) && g.ok && (Required(op).Some? ==> StateText(g) == Required(op).value)
    requires c.seq_ >= 0 && c.challenge >= 0
    ensures Answer(c, op, ReplyText(g), "") == Some(StateText(g))
  {
    ReplySplits(g);
    ReplyFits(g);
  }

  /** One prompt exchange that the device can obey: its answer is accepted, names
      the operation's state, and leaves both ends in step again. */
  lemma ExchangeInStep(c: Client, g: B.State, op: string, nows: seq<u32>)
    requires Idle(g) && B.Latched(g) && Session(c.session) && 0 <= c.seq_ < B.MAX32 && 0 <= c.challenge < TWO32
    requires op == "HELLO" || InStep(c, g)
    requires Prompt(g, Request(c, op), nows) && Obeys(c, g, op, nows[|nows| - 1])
    ensures var h := Delivered(g, Request(c, op), nows);
            InStep(Advanced(c, op), h) && Answer(c, op, ReplyText(h), "") == Some(StateText(h))
            && (Required(op).Some? ==> StateText(h) == Required(op).value)
  {
    RequestFits(c, op);
    RequestIsRead(c, op);
    LineIsExecuted(g, Request(c, op), nows);
    OrderInStep(c, g.(partialStarted := nows[0]), op, nows[|nows| - 1]);
    ReplyIsAccepted(c, Delivered(g, Request(c, op), nows), op);
  }

  // ---- the whole exchange ----

  /** A reply fits the host's limit and has no line feed of its own. */
  lemma ReplyFits(g: B.State)
    requires Session(g.session)
    ensures |ReplyText(g)| <= 61 && Plain(ReplyText(g)) && '\n' !in ReplyText(g)
  {
    var fs := ReplyFields(g);
    Dec32Length(g.sequence);
    Dec32Length(g.challenge);
    JoinLength(fs);
    JoinLength(fs[1..]);
    JoinLength(fs[1..][1..]);
    var tail := fs[1..][1..][1..];
    assert tail == [Dec(g.sequence), Dec(g.challenge), StateText(g), ReasonText(g.reason)];
    JoinLength(tail);
    JoinLength(tail[1..]);
    JoinLength(tail[1..][1..]);
    ReplyPlain(g);
  }

  lemma ReplyPlain(g: B.State)
    requires Session(g.session)
    ensures Plain(ReplyText(g))
  {
    DecPlain(g.sequence);
    DecPlain(g.challenge);
    assert Plain("H1") && Plain(g.session);
    WordsPlain(g);
    JoinPlain(ReplyFields(g));
  }

  lemma WordsPlain(g: B.State)
    ensures Plain(StateText(g)) && Plain(ReasonText(g.reason)) && Plain(if g.ok then "OK" else "ERR")
    ensures |StateText(g)| <= 6 && |ReasonText(g.reason)| <= 8
  {
  }

  /** One prompt exchange through the host's buffer: the request is obeyed, the
      reply in any chunks is accepted, and both ends are in step again. */
  lemma HostInStep(c: Client, g: B.State, op: string, nows: seq<u32>, chunks: seq<string>)
    requires Idle(g) && B.Latched(g) && Session(c.session) && 0 <= c.seq_ < B.MAX32 && 0 <= c.challenge < TWO32
    requires op == "HELLO" || InStep(c, g)
    requires Prompt(g, Request(c, op), nows) && Obeys(c, g, op, nows[|nows| - 1])
    requires Arriving(chunks, ReplyText(Delivered(g, Request(c, op), nows)))
    ensures var h := Delivered(g, Request(c, op), nows);
            InStep(Advanced(c, op), h)
            && Exchanged(Host(c, ""), op, true, chunks) == (Host(Advanced(c, op), ""), Some(StateText(h)))
  {
    ExchangeInStep(c, g, op, nows);
    var h := Delivered(g, Request(c, op), nows);
    ReplyIsConsumed(c, op, h, chunks);
  }

  lemma ReplyIsConsumed(c: Client, op: string, h: B.State, chunks: seq<string>)
    requires c.seq_ >= 0 && c.challenge >= 0 && Session(h.session) && Arriving(chunks, ReplyText(h))
    requires Answer(c, op, ReplyText(h), "") == Some(StateText(h))
    ensures Exchanged(Host(c, ""), op, true, chunks) == (Host(Advanced(c, op), ""), Some(StateText(h)))
  {
    ReplyFits(h);
    assert "" + Concat(chunks) == Concat(chunks);
    GatherWhole(LIMIT, "", chunks, ReplyText(h));
    WholeLine(Host(c, ""), op, chunks, ReplyText(h));
  }

  /** An exchange that gathers exactly one line judges that line. */
  lemma WholeLine(h: Host, op: string, chunks: seq<string>, line: string)
    requires h.client.seq_ >= 0 && h.client.challenge >= 0 && '\n' !in line
             && Gather(LIMIT, h.buffer, chunks) == (line + "\n", true)
    ensures var answer := Answer(h.client, op, line, "");
            Exchanged(h, op, true, chunks)
            == (Host(if answer.Some? then Advanced(h.client, op) else h.client, ""), answer)
  {
    FeedAtEnd(line);
  }

  /** A session: operations, each with the readings its bytes arrive at and the
      chunks its reply arrives in. */
  datatype Round = Round(op: string, nows: seq<u32>, chunks: seq<string>)

  /** Each round is prompt and one the device can obey in the state it meets. */
  ghost predicate Smooth(c: Client, g: B.State, rounds: seq<Round>)
    decreases |rounds|
  {
    rounds == []
    || (var r := rounds[0];
        0 <= c.seq_ < B.MAX32 && 0 <= c.challenge < TWO32 && r.op != "HELLO"
        && Prompt(g, Request(c, r.op), r.nows) && Obeys(c, g, r.op, r.nows[|r.nows| - 1])
        && Arriving(r.chunks, ReplyText(Delivered(g, Request(c, r.op), r.nows)))
        && Smooth(Advanced(c, r.op), Delivered(g, Request(c, r.op), r.nows), rounds[1..]))
  }

  /** Host and device after a session. */
  ghost function After(h: Host, g: B.State, rounds: seq<Round>): (Host, B.State)
    requires Smooth(h.client, g, rounds)
    decreases |rounds|
  {
    if rounds == [] then (h, g) else
    var r := rounds[0];
    var next := Exchanged(h, r.op, true, r.chunks).0;
    if next.client != Advanced(h.client, r.op) then (next, g) else
    After(next, Delivered(g, Request(h.client, r.op), r.nows), rounds[1..])
  }

  /** Over a whole session the two ends never lose step, and nothing is left in the
      host's buffer. */
  lemma {:induction false} SessionStaysInStep(c: Client, g: B.State, rounds: seq<Round>)
    requires InStep(c, g) && Smooth(c, g, rounds)
    ensures var (host, device) := After(Host(c, ""), g, rounds);
            InStep(host.client, device)
            && host == Host(Client(c.session, c.seq_ + |rounds|, c.challenge + |rounds|), "")
    decreases |rounds|
  {
    if rounds != [] {
      var r := rounds[0];
      HostInStep(c, g, r.op, r.nows, r.chunks);
      SessionStaysInStep(Advanced(c, r.op), Delivered(g, Request(c, r.op), r.nows), rounds[1..]);
    }
  }
}
