/** Reading one line from a serial port, in whatever chunks it arrives: the loop
    that both host links share. */
module Lines {

  /** What the read loop ends with: it stops at a line feed, at the deadline (no
      more reads), at a closed port (an empty read) or beyond `limit` bytes. */
  function Gather(limit: nat, buffer: string, chunks: seq<string>): (string, bool)
    decreases |chunks|
  {
    if '\n' in buffer then (buffer, true)
    else if chunks == [] || chunks[0] == "" then (buffer, false)
    else if |buffer + chunks[0]| > limit then (buffer + chunks[0], false)
    else Gather(limit, buffer + chunks[0], chunks[1..])
  }

  lemma {:induction false} GatherCompletes(limit: nat, buffer: string, chunks: seq<string>)
    ensures Gather(limit, buffer, chunks).1 ==> '\n' in Gather(limit, buffer, chunks).0
    decreases |chunks|
  {
    if !('\n' in buffer || chunks == [] || chunks[0] == "" || |buffer + chunks[0]| > limit) {
      GatherCompletes(limit, buffer + chunks[0], chunks[1..]);
    }
  }

  method ReadLine(limit: nat, buffer: string, chunks: seq<string>) returns (got: string, complete: bool)
    ensures (got, complete) == Gather(limit, buffer, chunks)
    ensures complete ==> '\n' in got
  {
    got := buffer;
    var i := 0;
    while '\n' !in got
      invariant 0 <= i <= |chunks| && Gather(limit, got, chunks[i..]) == Gather(limit, buffer, chunks)
      decreases |chunks| - i
    {
      if i == |chunks| || chunks[i] == "" { return got, false; }
      assert chunks[i..][1..] == chunks[i + 1..];
      got := got + chunks[i];
      if |got| > limit { return got, false; }
      i := i + 1;
    }
    return got, true;
  }

  /** The index of the first line feed. */
  function LineFeed(s: string): (i: nat)
    requires '\n' in s
    ensures i < |s| && s[i] == '\n' && '\n' !in s[..i]
  {
    if s[0] == '\n' then 0 else
    var i := 1 + LineFeed(s[1..]);
    assert s[..i] == [s[0]] + s[1..][..i - 1];
    i
  }

  /** `decode("ascii")` does not raise. */
  predicate Ascii(s: string) { forall i :: 0 <= i < |s| ==> s[i] < 128 as char }

  // ---- a whole line ----

  function Concat(chunks: seq<string>): string { if chunks == [] then "" else chunks[0] + Concat(chunks[1..]) }

  /** The line arrives, in any chunks. */
  ghost predicate Arriving(chunks: seq<string>, line: string) {
    Concat(chunks) == line + "\n" && forall i :: 0 <= i < |chunks| ==> chunks[i] != ""
  }

  /** A line within the limit is gathered whole, however it is cut. */
  lemma {:induction false} GatherWhole(limit: nat, buffer: string, chunks: seq<string>, line: string)
    requires buffer + Concat(chunks) == line + "\n" && '\n' !in line && |line| < limit
    requires forall i :: 0 <= i < |chunks| ==> chunks[i] != ""
    ensures Gather(limit, buffer, chunks) == (line + "\n", true)
    decreases |chunks|
  {
    var whole := line + "\n";
    assert whole[..|buffer|] == buffer;
    if chunks == [] {
      assert buffer == whole;
      assert whole[|line|] == '\n';
    } else {
      assert |buffer| < |whole|;
      assert buffer == line[..|buffer|];
      assert buffer + chunks[0] + Concat(chunks[1..]) == whole;
      GatherWhole(limit, buffer + chunks[0], chunks[1..], line);
    }
  }

  lemma FeedAtEnd(line: string)
    requires '\n' !in line
    ensures '\n' in line + "\n" && LineFeed(line + "\n") == |line|
    ensures (line + "\n")[..|line|] == line && (line + "\n")[|line| + 1..] == ""
  {
    var whole := line + "\n";
    assert whole[|line|] == '\n';
  }

  lemma OneChunk(line: string)
    ensures Arriving([line + "\n"], line)
  {
    assert Concat([line + "\n"]) == line + "\n" + Concat([]);
  }
}
