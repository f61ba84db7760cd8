/** Boot epochs from an append-only data flash that may lose power at any point. */
module Epoch {
  import opened Bytes

  /** One flash word: erased, or programmed (possibly torn) to some value. */
  datatype Cell = Blank | Word(value: u32)

  /** Where power is lost during a boot, if it is. */
  datatype Cut = Never | BeforeWrite | DuringWrite | AfterWrite

  /** Everything the storage may answer during one boot. `written` is what the
      attempt to program a zero leaves behind, whether or not it reports success. */
  datatype Io = Io(scanFails: nat -> bool, written: Cell, writeOk: bool, checkFails: bool, readFails: bool, cut: Cut)

  /** The length of the used prefix. */
  function Used(cells: seq<Cell>): (n: nat)
    ensures n <= |cells|
    ensures forall i :: 0 <= i < n ==> cells[i].Word?
    ensures n < |cells| ==> cells[n].Blank?
  {
    if cells == [] || cells[0].Blank? then 0 else 1 + Used(cells[1..])
  }

  predicate HoleFree(cells: seq<Cell>) {
    forall i :: Used(cells) <= i < |cells| ==> cells[i].Blank?
  }

  /** What one boot may do to the flash, and the epoch it may return. */
  ghost predicate BootStep(before: seq<Cell>, after: seq<Cell>, epoch: int) {
    || (after == before && epoch == 0)
    || (HoleFree(before) && Used(before) < |before| == |after|
        && after == before[Used(before) := after[Used(before)]]
        && (epoch == 0 || (epoch == Used(before) + 1 && after[Used(before)] == Word(0))))
  }

  lemma UsedIs(cells: seq<Cell>, n: nat)
    requires n <= |cells| && (forall i :: 0 <= i < n ==> cells[i].Word?) && (n < |cells| ==> cells[n].Blank?)
    ensures Used(cells) == n
  {
  }

  /** `reserve_boot_epoch`: scan for the first blank word, refuse a hole, program
      a zero, and read it back before trusting it. */
  method ReserveBootEpoch(cells: array<Cell>, io: Io) returns (epoch: u32)
    requires cells.Length < TWO32
    modifies cells
    ensures BootStep(old(cells[..]), cells[..], epoch)
    ensures epoch != 0 ==> HoleFree(old(cells[..])) && epoch == Used(old(cells[..])) + 1 && io.cut.Never?
    ensures epoch == 0 ==>
              || !HoleFree(old(cells[..])) || Used(old(cells[..])) == cells.Length || io.cut != Never
              || !io.writeOk || io.checkFails || io.readFails || io.written != Word(0)
              || exists i: nat :: i < cells.Length && io.scanFails(i)
  {
    var slots := cells.Length;
    var firstBlank := slots;
    ghost var before := cells[..];
    for i := 0 to slots
      invariant cells[..] == before
      invariant firstBlank == slots || 0 <= firstBlank < i
      invariant firstBlank == slots ==> forall k :: 0 <= k < i ==> before[k].Word?
      invariant firstBlank < slots ==>
                  before[firstBlank].Blank? && (forall k :: 0 <= k < firstBlank ==> before[k].Word?)
                                       && forall k :: firstBlank <= k < i ==> before[k].Blank?
    {
      if io.scanFails(i) { return 0; }
      if cells[i].Blank? {
        if firstBlank == slots { firstBlank := i; }
      } else if firstBlank != slots {
        UsedIs(before, firstBlank);
        assert before[i].Word?;
        return 0;
      }
    }
    UsedIs(before, firstBlank);
    if firstBlank == slots || io.cut.BeforeWrite? { return 0; }
    cells[firstBlank] := io.written;
    assert cells[..] == before[firstBlank := io.written];
    if io.cut.DuringWrite? || !io.writeOk { return 0; }
    if io.cut.AfterWrite? || io.checkFails || cells[firstBlank].Blank? || io.readFails || cells[firstBlank].value != 0 {
      return 0;
    }
    return firstBlank + 1;
  }

  lemma BootKeepsPrefix(before: seq<Cell>, after: seq<Cell>, epoch: int)
    requires BootStep(before, after, epoch)
    ensures |after| == |before| && Used(before) <= Used(after)
    ensures HoleFree(before) ==> HoleFree(after)
    ensures epoch != 0 ==> Used(before) < epoch == Used(after)
    ensures !HoleFree(before) || Used(before) == |before| ==> after == before && epoch == 0
  {
    if after != before || epoch != 0 {
      var n := Used(before);
      if after[n].Word? { UsedIs(after, n + 1); }
    }
  }

  /** A life of the flash: states[i] is the flash after i boots. */
  ghost predicate History(states: seq<seq<Cell>>, epochs: seq<int>) {
    |states| == |epochs| + 1
    && forall i :: 0 <= i < |epochs| ==> BootStep(states[i], states[i + 1], epochs[i])
  }

  function Granted(epochs: seq<int>): nat {
    if epochs == [] then 0 else Granted(epochs[..|epochs| - 1]) + if epochs[|epochs| - 1] != 0 then 1 else 0
  }

  lemma {:induction false} FlashOnlyGrows(states: seq<seq<Cell>>, epochs: seq<int>, i: nat, j: nat)
    requires History(states, epochs) && i <= j <= |epochs|
    ensures |states[i]| == |states[j]| && Used(states[i]) <= Used(states[j])
    ensures HoleFree(states[i]) ==> HoleFree(states[j])
    ensures !HoleFree(states[i]) || Used(states[i]) == |states[i]| ==> states[j] == states[i]
    decreases j - i
  {
    if i < j {
      FlashOnlyGrows(states, epochs, i, j - 1);
      BootKeepsPrefix(states[j - 1], states[j], epochs[j - 1]);
    }
  }

  /** Epochs are strictly increasing over any sequence of boots, cut short or
      not, and each lies within the used prefix of its time. */
  lemma EpochsIncrease(states: seq<seq<Cell>>, epochs: seq<int>, i: nat, j: nat)
    requires History(states, epochs) && i < j < |epochs| && epochs[i] != 0 && epochs[j] != 0
    ensures 0 < epochs[i] <= Used(states[j]) < epochs[j] <= |states[0]|
  {
    BootKeepsPrefix(states[i], states[i + 1], epochs[i]);
    FlashOnlyGrows(states, epochs, i + 1, j);
    BootKeepsPrefix(states[j], states[j + 1], epochs[j]);
    FlashOnlyGrows(states, epochs, 0, j + 1);
  }

  /** A full store, or one with a hole, never changes and never gives an epoch. */
  lemma SpentStoreGivesNothing(states: seq<seq<Cell>>, epochs: seq<int>, i: nat, j: nat)
    requires History(states, epochs) && i <= j < |epochs|
    requires !HoleFree(states[i]) || Used(states[i]) == |states[i]|
    ensures states[j] == states[i] && epochs[j] == 0
  {
    FlashOnlyGrows(states, epochs, i, j);
    BootKeepsPrefix(states[j], states[j + 1], epochs[j]);
  }

  /** At most as many boots as there are slots ever get an epoch. */
  lemma {:induction false} AtMostSlotsEpochs(states: seq<seq<Cell>>, epochs: seq<int>)
    requires History(states, epochs)
    ensures Granted(epochs) <= Used(states[|epochs|]) - Used(states[0]) <= |states[0]|
  {
    FlashOnlyGrows(states, epochs, 0, |epochs|);
    if epochs != [] {
      var n := |epochs| - 1;
      var earlier := states[..n + 1];
      assert forall i :: 0 <= i <= n ==> earlier[i] == states[i];
      AtMostSlotsEpochs(earlier, epochs[..n]);
      BootKeepsPrefix(states[n], states[n + 1], epochs[n]);
    }
  }
}
