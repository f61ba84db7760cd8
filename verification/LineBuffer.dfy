/** C strings in the controller's line buffer: comparison, in-place field
    splitting, and the decimal and hex parsers, as the loops that they are. */
module LineBuffer {
  import opened Bytes
  import opened Text
  import opened Frames

  /** The NUL-terminated string `s` starts at index `at` of the buffer. */
  ghost predicate CString(buffer: seq<char>, at: nat, s: string) {
    at + |s| < |buffer| && buffer[at..at + |s|] == s && buffer[at + |s|] == '\0' && '\0' !in s
  }

  lemma {:induction false} CStringAt(buffer: seq<char>, at: nat, s: string, i: nat)
    requires CString(buffer, at, s) && i <= |s|
    ensures buffer[at + i] == if i < |s| then s[i] else '\0'
    ensures buffer[at + i] == '\0' <==> i == |s|
  {
    if i < |s| {
      assert buffer[at + i] == buffer[at..at + |s|][i];
      assert s[i] in s;
    }
  }

  /** `!strcmp(s, literal)` */
  method Equals(line: array<char>, at: nat, literal: string, ghost s: string) returns (same: bool)
    requires CString(line[..], at, s) && '\0' !in literal
    ensures same <==> s == literal
  {
    var i := 0;
    CStringAt(line[..], at, s, 0);
    while i < |literal| && line[at + i] == literal[i]
      invariant i <= |literal| && i <= |s| && s[..i] == literal[..i]
      invariant line[at + i] == if i < |s| then s[i] else '\0'
    {
      assert literal[i] in literal;
      i := i + 1;
      CStringAt(line[..], at, s, i);
    }
    CStringAt(line[..], at, s, i);
    same := i == |literal| && line[at + i] == '\0';
    if same {
      assert s == s[..i] && literal == literal[..i];
    } else if i < |literal| {
      assert literal[i] in literal;
      assert s != literal;
    }
  }

  /** `number`: accumulates digits and refuses before an overflow can happen. */
  method ParseNumber(line: array<char>, at: nat, ghost s: string) returns (ok: bool, value: u32)
    requires CString(line[..], at, s)
    ensures ok <==> Number(s).Some?
    ensures ok ==> value == Number(s).value
  {
    CStringAt(line[..], at, s, 0);
    if line[at] == '\0' { return false, 0; }
    CStringAt(line[..], at, s, 1);
    if line[at] == '0' && line[at + 1] != '\0' { return false, 0; }
    value := 0;
    var i := 0;
    while line[at + i] != '\0'
      invariant i <= |s| && AllDigits(s[..i]) && value == Value(s[..i])
      invariant at + |s| < line.Length && (line[at + i] == '\0' <==> i == |s|)
      decreases |s| - i
    {
      CStringAt(line[..], at, s, i);
      var c := line[at + i];
      if !IsDigit(c) { return false, 0; }
      var digit := DigitValue(c);
      assert s[..i + 1][..i] == s[..i];
      if value > (0xffff_ffff - digit) / 10 {
        if AllDigits(s) { ValueMonotone(s, i + 1); }
        return false, 0;
      }
      value := value * 10 + digit;
      i := i + 1;
      CStringAt(line[..], at, s, i);
    }
    assert s[..i] == s;
    return true, value;
  }

  lemma {:induction false} Bytes2At(s: string, k: nat)
    requires AllHex(s) && |s| % 2 == 0 && k < |s| / 2
    ensures |Bytes2(s)| == |s| / 2 && Bytes2(s)[k] == HexValue(s[2 * k]) * 16 + HexValue(s[2 * k + 1])
  {
    Bytes2Shape(s);
    if k > 0 { Bytes2At(s[2..], k - 1); }
  }

  /** `strlen` */
  method Length(line: array<char>, at: nat, ghost s: string) returns (n: nat)
    requires CString(line[..], at, s)
    ensures n == |s|
  {
    n := 0;
    CStringAt(line[..], at, s, 0);
    while line[at + n] != '\0'
      invariant n <= |s| && at + |s| < line.Length
      invariant line[at + n] == '\0' <==> n == |s|
      decreases |s| - n
    {
      n := n + 1;
      CStringAt(line[..], at, s, n);
    }
  }

  /** `unhex`: fills each byte from its high and then its low digit. */
  method ParseHex(line: array<char>, at: nat, size: nat, ghost s: string) returns (ok: bool, bytes: seq<byte>)
    requires CString(line[..], at, s)
    ensures ok <==> Unhex(s, size).Some?
    ensures ok ==> bytes == Unhex(s, size).value
  {
    var n := Length(line, at, s);
    if n != size * 2 { return false, []; }
    var out := new byte[size];
    for i := 0 to size * 2
      invariant CString(line[..], at, s) && forall k :: 0 <= k < i ==> IsHexDigit(s[k])
      invariant forall k :: 0 <= k < i / 2 ==> out[k] == Nibble(s[2 * k]) * 16 + Nibble(s[2 * k + 1])
      invariant i % 2 == 1 ==> out[i / 2] == Nibble(s[i - 1]) * 16
    {
      CStringAt(line[..], at, s, i);
      var c := line[at + i];
      if !IsHexDigit(c) { return false, []; }
      var value := Nibble(c);
      if i % 2 == 0 { out[i / 2] := value * 16; } else { out[i / 2] := out[i / 2] + value; }
    }
    NibblesAreBytes(s, out[..]);
    return true, out[..];
  }

  /** The value of a hex digit, zero for anything else. */
  function Nibble(c: char): (d: int)
    ensures 0 <= d < 16
  {
    if IsHexDigit(c) then HexValue(c) else 0
  }

  lemma {:induction false} NibblesAreBytes(s: string, out: seq<byte>)
    requires AllHex(s) && |s| == 2 * |out|
    requires forall k :: 0 <= k < |out| ==> out[k] == Nibble(s[2 * k]) * 16 + Nibble(s[2 * k + 1])
    ensures out == Bytes2(s)
  {
    Bytes2Shape(s);
    forall k | 0 <= k < |out|
      ensures out[k] == Bytes2(s)[k]
    {
      Bytes2At(s, k);
    }
  }

  /** The fields of a split line, each a C string where `at` says. */
  ghost predicate FieldsAt(buffer: seq<char>, at: seq<nat>, fields: seq<string>) {
    |at| <= |fields|
    && forall k {:trigger CString(buffer, at[k], fields[k])} :: 0 <= k < |at| ==> CString(buffer, at[k], fields[k])
  }

  lemma {:induction false} SplitStep(s: string)
    ensures FirstSpace(s) < |s| ==> Split(s) == [s[..FirstSpace(s)]] + Split(s[FirstSpace(s) + 1..])
    ensures FirstSpace(s) == |s| ==> Split(s) == [s]
  {
  }

  lemma {:induction false} FieldsKept(old_: seq<char>, new_: seq<char>, at: seq<nat>, fields: seq<string>, p: nat)
    requires FieldsAt(old_, at, fields) && |old_| == |new_| && p <= |old_|
    requires forall k :: 0 <= k < |at| ==> at[k] + |fields[k]| < p
    requires forall i :: 0 <= i < p ==> new_[i] == old_[i]
    ensures FieldsAt(new_, at, fields)
  {
    forall k | 0 <= k < |at|
      ensures CString(new_, at[k], fields[k])
    {
      assert CString(old_, at[k], fields[k]);
      assert new_[at[k]..at[k] + |fields[k]|] == old_[at[k]..at[k] + |fields[k]|];
    }
  }

  /** The character that ends the next field: a space or the final NUL. */
  method EndOfField(line: array<char>, p: nat, ghost n: nat) returns (q: nat)
    requires p <= n < line.Length && line[n] == '\0' && '\0' !in line[p..n]
    ensures p <= q <= n && q == p + FirstSpace(line[p..n]) && line[q] == (if q < n then ' ' else '\0')
  {
    q := p;
    while line[q] != '\0' && line[q] != ' '
      invariant p <= q <= n && ' ' !in line[p..q]
      decreases n - q
    {
      assert q != n;
      assert line[p..q + 1] == line[p..q] + [line[q]];
      q := q + 1;
    }
    ghost var rest := line[p..n];
    if q < n {
      assert rest[q - p] == line[q];
      assert line[q] in rest;
      assert line[q] == ' ';
    }
    assert rest == line[p..q] + line[q..n];
    FirstSpaceAfter(line[p..q], line[q..n]);
  }

  /** The splitter has cut the fields `at` off and stands at `p`. */
  ghost predicate Progress(buffer: seq<char>, p: nat, s: string, at: seq<nat>) {
    p <= |s| < |buffer| && buffer[|s|] == '\0' && '\0' !in s && buffer[p..|s|] == s[p..]
    && |at| <= |Split(s)| && Split(s) == Split(s)[..|at|] + Split(s[p..])
    && (forall k :: 0 <= k < |at| ==> at[k] + |Split(s)[k]| < p)
    && FieldsAt(buffer, at, Split(s))
  }

  /** One turn of the splitter: the space that ends the field becomes a NUL. */
  method CutOne(line: array<char>, p: nat, ghost s: string, ghost at: seq<nat>) returns (more: bool, q: nat)
    requires Progress(line[..], p, s, at)
    modifies line
    ensures if more then Progress(line[..], q, s, at + [p]) else |Split(s)| == |at| + 1
  {
    if line[p] == '\0' {
      AtEnd(line[..], p, s, at);
      return false, p;
    }
    assert line[p..|s|] == s[p..];
    q := EndOfField(line, p, |s|);
    if line[q] != ' ' {
      OneFieldLeft(line[..], p, s, at);
      return false, p;
    }
    ghost var before := line[..];
    line[q] := '\0';
    assert line[..] == before[q := '\0'];
    ProgressStep(before, p, q, s, at);
    return true, q + 1;
  }

  /** The last field runs to the NUL and is not empty. */
  method LastField(line: array<char>, p: nat, ghost s: string, ghost at: seq<nat>) returns (ok: bool)
    requires Progress(line[..], p, s, at)
    ensures ok <==> |Split(s)| == |at| + 1 && Split(s)[|at|] != ""
    ensures ok ==> FieldsAt(line[..], at + [p], Split(s))
  {
    if line[p] == '\0' {
      AtEnd(line[..], p, s, at);
      return false;
    }
    assert line[p..|s|] == s[p..];
    var q := EndOfField(line, p, |s|);
    if line[q] != '\0' {
      MoreFieldsLeft(line[..], p, q, s, at);
      return false;
    }
    OneFieldLeft(line[..], p, s, at);
    assert line[p] == s[p..][0];
    return true;
  }

  /** The in-place splitter. */
  method SplitFields(line: array<char>, count: nat, ghost s: string) returns (ok: bool, at: seq<nat>)
    requires CString(line[..], 0, s) && count >= 1
    modifies line
    ensures ok <==> |Split(s)| == count && Split(s)[count - 1] != ""
    ensures ok ==> |at| == count && FieldsAt(line[..], at, Split(s))
  {
    at := [];
    var p := 0;
    assert s[0..] == s;
    while |at| < count - 1
      invariant |at| <= count - 1 && Progress(line[..], p, s, at)
      decreases count - |at|
    {
      var more, q := CutOne(line, p, s, at);
      if !more { return false, at; }
      at, p := at + [p], q;
    }
    ok := LastField(line, p, s, at);
    at := at + [p];
  }

  lemma {:induction false} AtEnd(buffer: seq<char>, p: nat, s: string, at: seq<nat>)
    requires Progress(buffer, p, s, at) && buffer[p] == '\0'
    ensures |Split(s)| == |at| + 1 && Split(s)[|at|] == ""
  {
    assert buffer[p..|s|] == s[p..];
    assert s[p..] == "";
  }

  lemma {:induction false} OneFieldLeft(buffer: seq<char>, p: nat, s: string, at: seq<nat>)
    requires Progress(buffer, p, s, at) && FirstSpace(s[p..]) == |s[p..]|
    ensures |Split(s)| == |at| + 1 && Split(s)[|at|] == s[p..] && CString(buffer, p, s[p..])
  {
    SplitStep(s[p..]);
  }

  lemma {:induction false} MoreFieldsLeft(buffer: seq<char>, p: nat, q: nat, s: string, at: seq<nat>)
    requires Progress(buffer, p, s, at) && q == p + FirstSpace(s[p..]) < |s|
    ensures |Split(s)| >= |at| + 2
  {
    SplitStep(s[p..]);
  }

  lemma {:induction false} ProgressStep(buffer: seq<char>, p: nat, q: nat, s: string, at: seq<nat>)
    requires Progress(buffer, p, s, at) && q == p + FirstSpace(s[p..]) < |s|
    ensures Progress(buffer[q := '\0'], q + 1, s, at + [p])
  {
    var cut := buffer[q := '\0'];
    SplitAdvances(s, p, q, |at|);
    FieldsKept(buffer, cut, at, Split(s), p);
    CutField(buffer, p, q, s);
    FieldsExtended(cut, at, p, Split(s));
  }

  lemma {:induction false} SplitAdvances(s: string, p: nat, q: nat, done: nat)
    requires p <= |s| && q == p + FirstSpace(s[p..]) < |s|
    requires done <= |Split(s)| && Split(s) == Split(s)[..done] + Split(s[p..])
    ensures done < |Split(s)| && Split(s)[done] == s[p..q]
    ensures Split(s) == Split(s)[..done + 1] + Split(s[q + 1..])
  {
    var rest := s[p..];
    SplitStep(rest);
    assert rest[..q - p] == s[p..q] && rest[q - p + 1..] == s[q + 1..];
    ShiftOne(Split(s), done, s[p..q], Split(s[q + 1..]));
  }

  lemma {:induction false} CutField(buffer: seq<char>, p: nat, q: nat, s: string)
    requires p <= q < |s| < |buffer| && '\0' !in s && buffer[p..|s|] == s[p..]
    ensures CString(buffer[q := '\0'], p, s[p..q])
    ensures buffer[q := '\0'][q + 1..|s|] == s[q + 1..]
  {
    var cut := buffer[q := '\0'];
    assert cut[q + 1..|s|] == buffer[p..|s|][q + 1 - p..];
    assert cut[p..q] == buffer[p..|s|][..q - p] == s[p..q];
  }

  lemma {:induction false} FieldsExtended(buffer: seq<char>, at: seq<nat>, p: nat, fields: seq<string>)
    requires FieldsAt(buffer, at, fields) && |at| < |fields| && CString(buffer, p, fields[|at|])
    ensures FieldsAt(buffer, at + [p], fields)
  {
  }

  lemma {:induction false} ShiftOne<T>(w: seq<T>, done: nat, x: T, t: seq<T>)
    requires done <= |w| && w == w[..done] + ([x] + t)
    ensures done < |w| && w[done] == x && w == w[..done + 1] + t
  {
    assert w[..done + 1] == w[..done] + [x];
  }
}
