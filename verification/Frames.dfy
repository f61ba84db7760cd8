/** The H2 permit frame: what the relay prints and what the controller reads. */
module Frames {
  import opened Bytes
  import opened Text

  datatype Op = Bind | Arm | Run

  /** A permit line after parsing. `peer` is present only in a BIND. */
  datatype Frame = Frame(op: Op, generation: u32, sequence: u32, token: u32, stamp: u32,
                         duration: u32, peer: seq<byte>, tag: seq<byte>)
  {
    predicate Shaped() {
      if op.Bind? then |peer| == 32 && |tag| == 64 else |peer| == 0 && |tag| == 32
    }
  }

  function OpText(op: Op): string {
    match op case Bind => "BIND" case Arm => "ARM" case Run => "RUN"
  }

  function NumberFields(f: Frame): seq<string> {
    [Dec(f.generation), Dec(f.sequence), Dec(f.token), Dec(f.stamp), Dec(f.duration)]
  }

  function HexFields(f: Frame): seq<string> {
    if f.op.Bind? then [Hex(f.peer), Hex(f.tag)] else [Hex(f.tag)]
  }

  function PrintFields(f: Frame): seq<string> {
    ["H2", OpText(f.op)] + NumberFields(f) + HexFields(f)
  }

  /** The canonical print of a frame, without its final line feed. */
  function Print(f: Frame): string { Join(PrintFields(f)) }

  /** The controller's field count for a line: a BIND carries one field more. */
  function FieldCount(line: string): int { if IsBind(line) then 9 else 8 }

  predicate IsBind(line: string) { "H2 BIND " <= line }

  /** The parser's verdict on the fields it has converted. */
  function Assemble(h2: bool, arm: bool, run: bool, binding: bool, n: seq<Option<u32>>,
                    tag: Option<seq<byte>>, peer: Option<seq<byte>>): Option<Frame>
    requires |n| == 5
  {
    if !h2 || !(arm || run || binding) || tag.None? || peer.None? then None
    else if n[0].None? || n[1].None? || n[2].None? || n[3].None? || n[4].None? then None
    else Some(Frame(if arm then Arm else if run then Run else Bind,
                    n[0].value, n[1].value, n[2].value, n[3].value, n[4].value, peer.value, tag.value))
  }

  /** The parser's acceptance test on the split line. */
  function Read(fs: seq<string>, binding: bool): Option<Frame>
    requires |fs| == if binding then 9 else 8
  {
    Assemble(fs[0] == "H2", fs[1] == "ARM", fs[1] == "RUN", binding,
             [Number(fs[2]), Number(fs[3]), Number(fs[4]), Number(fs[5]), Number(fs[6])],
             Unhex(fs[if binding then 8 else 7], if binding then 64 else 32),
             if binding then Unhex(fs[7], 32) else Some([]))
  }

  /** What the controller reads from a complete line, or None for "protocol". */
  function Parse(line: string): Option<Frame> {
    var fs := Split(line);
    if |fs| != FieldCount(line) || fs[|fs| - 1] == "" then None
    else Read(fs, IsBind(line))
  }

  lemma {:induction false} PrintFieldsAreSpaceFree(f: Frame)
    ensures SpaceFree(PrintFields(f))
  {
    NumberFieldsAreSpaceFree(f);
    HexFieldsAreSpaceFree(f);
    OpTextIsSpaceFree(f.op);
  }

  lemma {:induction false} OpTextIsSpaceFree(op: Op)
    ensures SpaceFree(["H2", OpText(op)])
  {
    assert ' ' !in "H2" && ' ' !in "BIND" && ' ' !in "ARM" && ' ' !in "RUN";
  }

  lemma {:induction false} NumberFieldsAreSpaceFree(f: Frame)
    ensures SpaceFree(NumberFields(f))
  {
    DecIsCanonical(f.generation);
    DecIsCanonical(f.sequence);
    DecIsCanonical(f.token);
    DecIsCanonical(f.stamp);
    DecIsCanonical(f.duration);
  }

  lemma {:induction false} HexFieldsAreSpaceFree(f: Frame)
    ensures SpaceFree(HexFields(f))
  {
    HexShape(f.peer);
    HexShape(f.tag);
  }

  /** The binding test on the raw line agrees with the first two fields. */
  lemma {:induction false} BindingTest(line: string)
    requires |Split(line)| >= 3
    ensures "H2 BIND " <= line <==> Split(line)[0] == "H2" && Split(line)[1] == "BIND"
  {
    if Split(line)[0] == "H2" && Split(line)[1] == "BIND" { FieldsGivePrefix(line); }
    if "H2 BIND " <= line { BindPrefixSplits(line); }
  }

  lemma {:induction false} FieldsGivePrefix(line: string)
    requires |Split(line)| >= 3 && Split(line)[0] == "H2" && Split(line)[1] == "BIND"
    ensures "H2 BIND " <= line
  {
    var fs := Split(line);
    SplitThenJoin(line);
    JoinTwo(fs);
    TwoWords(Join(fs[2..]));
  }

  lemma {:induction false} JoinTwo(fs: seq<string>)
    requires |fs| >= 3
    ensures Join(fs) == fs[0] + " " + (fs[1] + " " + Join(fs[2..]))
  {
    assert fs == [fs[0]] + fs[1..] && fs[1..] == [fs[1]] + fs[2..];
    JoinFirst(fs[0], fs[1..]);
    JoinFirst(fs[1], fs[2..]);
  }

  lemma {:induction false} TwoWords(rest: string)
    ensures "H2" + " " + ("BIND" + " " + rest) == "H2 BIND " + rest
  {
    assert "H2 BIND " == "H2" + " " + "BIND" + " ";
  }

  lemma {:induction false} BindPrefixSplits(line: string)
    requires "H2 BIND " <= line
    ensures |Split(line)| >= 3 && Split(line)[0] == "H2" && Split(line)[1] == "BIND"
  {
    var rest := line[8..];
    assert line == "H2 BIND " + rest;
    TwoWords(rest);
    SplitFirst("H2", "BIND" + " " + rest);
    SplitFirst("BIND", rest);
  }

  /** Every well-shaped frame is read back exactly as printed. */
  lemma {:induction false} ParsePrint(f: Frame)
    requires f.Shaped()
    ensures Parse(Print(f)) == Some(f)
  {
    var fs := PrintFields(f);
    PrintFieldsAreSpaceFree(f);
    JoinThenSplit(fs);
    BindingTest(Print(f));
    HexShape(f.tag);
    ReadPrinted(f);
  }

  lemma {:induction false} ReadPrinted(f: Frame)
    requires f.Shaped()
    ensures Read(PrintFields(f), f.op.Bind?) == Some(f)
  {
    var fs := PrintFields(f);
    NumberAcceptsExactlyCanonical(fs[2], f.generation);
    NumberAcceptsExactlyCanonical(fs[3], f.sequence);
    NumberAcceptsExactlyCanonical(fs[4], f.token);
    NumberAcceptsExactlyCanonical(fs[5], f.stamp);
    NumberAcceptsExactlyCanonical(fs[6], f.duration);
    UnhexAcceptsExactlyHex(Hex(f.tag), |f.tag|, f.tag);
    UnhexAcceptsExactlyHex(Hex(f.peer), |f.peer|, f.peer);
  }

  lemma {:induction false} ReadPrintsBack(fs: seq<string>, binding: bool)
    requires |fs| == if binding then 9 else 8
    requires binding ==> fs[1] == "BIND"
    requires Read(fs, binding).Some?
    ensures Read(fs, binding).value.Shaped() && fs == PrintFields(Read(fs, binding).value)
  {
    ReadOpBack(fs, binding);
    ReadNumbersBack(fs, binding);
    ReadHexBack(fs, binding);
    assert fs == fs[..2] + fs[2..7] + fs[7..];
  }

  lemma {:induction false} ReadOpBack(fs: seq<string>, binding: bool)
    requires |fs| == (if binding then 9 else 8) && (binding ==> fs[1] == "BIND") && Read(fs, binding).Some?
    ensures var op := Read(fs, binding).value.op; (op.Bind? <==> binding) && fs[..2] == ["H2", OpText(op)]
  {
  }

  lemma {:induction false} ReadNumbersBack(fs: seq<string>, binding: bool)
    requires |fs| == (if binding then 9 else 8) && Read(fs, binding).Some?
    ensures fs[2..7] == NumberFields(Read(fs, binding).value)
  {
    var f := Read(fs, binding).value;
    NumberAcceptsExactlyCanonical(fs[2], f.generation);
    NumberAcceptsExactlyCanonical(fs[3], f.sequence);
    NumberAcceptsExactlyCanonical(fs[4], f.token);
    NumberAcceptsExactlyCanonical(fs[5], f.stamp);
    NumberAcceptsExactlyCanonical(fs[6], f.duration);
  }

  lemma {:induction false} ReadHexBack(fs: seq<string>, binding: bool)
    requires |fs| == (if binding then 9 else 8) && (binding ==> fs[1] == "BIND") && Read(fs, binding).Some?
    ensures Read(fs, binding).value.Shaped() && fs[7..] == HexFields(Read(fs, binding).value)
  {
    var f := Read(fs, binding).value;
    if binding {
      UnhexAcceptsExactlyHex(fs[8], 64, f.tag);
      UnhexAcceptsExactlyHex(fs[7], 32, f.peer);
    } else {
      UnhexAcceptsExactlyHex(fs[7], 32, f.tag);
    }
  }

  /** Every line that passes the controller's syntax checks is the canonical
      print of the frame it was read as. */
  lemma {:induction false} PrintParse(line: string)
    requires Parse(line).Some?
    ensures Parse(line).value.Shaped() && line == Print(Parse(line).value)
  {
    var fs := Split(line);
    SplitThenJoin(line);
    if "H2 BIND " <= line { BindPrefixSplits(line); }
    ReadPrintsBack(fs, IsBind(line));
  }

  lemma {:induction false} JoinLength(fs: seq<string>)
    requires |fs| >= 2
    ensures |Join(fs)| == |fs[0]| + 1 + |Join(fs[1..])|
  {
  }

  /** A frame the relay may print fits the 256-byte line buffer. */
  lemma {:induction false} PrintFits(f: Frame)
    requires f.Shaped()
    requires if f.op.Bind? then f.duration == 0 else f.duration <= 200
    ensures |Print(f)| <= 247
    ensures f.op != Bind ==> |Print(f)| <= 119
  {
    Dec32Length(f.generation);
    Dec32Length(f.sequence);
    Dec32Length(f.token);
    Dec32Length(f.stamp);
    Dec32Length(f.duration);
    HexShape(f.peer);
    HexShape(f.tag);
    var fs := PrintFields(f);
    JoinLength(fs);
    JoinLength(fs[1..]);
    JoinLength(fs[1..][1..]);
    JoinLength(fs[1..][1..][1..]);
    var r := fs[1..][1..][1..][1..];
    assert r == [Dec(f.token), Dec(f.stamp), Dec(f.duration)] + HexFields(f);
    JoinLength(r);
    JoinLength(r[1..]);
    JoinLength(r[1..][1..]);
    var q := r[1..][1..][1..];
    assert q == HexFields(f);
    if f.op.Bind? { JoinLength(q); }
  }

  /** Every character of a printed frame is one the line buffer takes. */
  predicate Plain(s: string) { forall i :: 0 <= i < |s| ==> ' ' <= s[i] <= '~' }

  lemma {:induction false} JoinPlain(fs: seq<string>)
    requires fs != [] && AllPlain(fs)
    ensures Plain(Join(fs))
  {
    if |fs| > 1 { JoinPlain(fs[1..]); }
  }

  predicate AllPlain(fs: seq<string>) { forall i :: 0 <= i < |fs| ==> Plain(fs[i]) }

  lemma {:induction false} PrintPlain(f: Frame)
    ensures Plain(Print(f))
  {
    NumberFieldsPlain(f);
    HexShape(f.peer);
    HexShape(f.tag);
    assert AllPlain(HexFields(f));
    HeadPlain(f.op);
    AllPlainAppend(["H2", OpText(f.op)], NumberFields(f));
    AllPlainAppend(["H2", OpText(f.op)] + NumberFields(f), HexFields(f));
    JoinPlain(PrintFields(f));
  }

  lemma {:induction false} HeadPlain(op: Op)
    ensures AllPlain(["H2", OpText(op)])
  {
  }

  lemma {:induction false} AllPlainAppend(a: seq<string>, b: seq<string>)
    requires AllPlain(a) && AllPlain(b)
    ensures AllPlain(a + b)
  {
  }

  lemma {:induction false} NumberFieldsPlain(f: Frame)
    ensures AllPlain(NumberFields(f))
  {
    DecPlain(f.generation);
    DecPlain(f.sequence);
    DecPlain(f.token);
    DecPlain(f.stamp);
    DecPlain(f.duration);
  }

  lemma {:induction false} DecPlain(n: nat)
    ensures Plain(Dec(n))
  {
    DecIsCanonical(n);
  }
}
