/** Signed input counters across crashes: sign, reserve durably, then publish. */
module Counters {
  import opened Bytes

  datatype Role = WorldRole | FaultRole | Vla

  /** What the counter file holds. */
  datatype Saved = Saved(epoch: int, counters: map<Role, int>)

  /** The part of a published envelope that orders it; `id` is the proposal's. */
  datatype Envelope = Envelope(epoch: int, role: Role, counter: int, id: Option<int>)

  /** A running signer. */
  datatype Process = Process(epoch: int, counters: map<Role, int>, seq_: int)

  /** How one send ends. `Torn` is an interrupted reservation: the new file may or
      may not be in place, and may or may not survive a power cut. Everything but
      `Goes` ends the process. */
  datatype Fate = Goes | SignFails | Torn(visible: bool, durable: bool) | DiesBeforePublish

  predicate Before(a: Envelope, b: Envelope) {
    a.epoch < b.epoch || (a.epoch == b.epoch && a.counter < b.counter)
  }

  /** No counter of a role is published twice, and each is larger than the last. */
  ghost predicate Ordered(published: seq<Envelope>) {
    forall i, j :: 0 <= i < j < |published| && published[i].role == published[j].role ==>
      Before(published[i], published[j])
  }

  ghost predicate IdsMatch(published: seq<Envelope>) {
    forall i :: 0 <= i < |published| && published[i].role.Vla? ==> published[i].id == Some(published[i].counter)
  }

  /** The file covers what was published: same epoch and at least that counter, or
      a later epoch. */
  ghost predicate Covers(saved: Option<Saved>, e: Envelope) {
    saved.Some? && (e.epoch < saved.value.epoch
                    || (e.epoch == saved.value.epoch && e.role in saved.value.counters
                        && e.counter <= saved.value.counters[e.role]))
  }

  ghost predicate AllCovered(saved: Option<Saved>, published: seq<Envelope>) {
    forall i :: 0 <= i < |published| ==> Covers(saved, published[i])
  }

  /** A running signer is at or ahead of its file. */
  ghost predicate Ahead(p: Process, saved: Option<Saved>, keys: set<Role>) {
    p.epoch > 0 && p.counters.Keys == keys
    && (saved.Some? ==> saved.value.epoch <= p.epoch)
    && (saved.Some? && saved.value.epoch == p.epoch ==>
          forall r :: r in saved.value.counters && r in keys ==> saved.value.counters[r] <= p.counters[r])
  }

  /** Between calls, the proposal number is the counter. */
  ghost predicate InStep(p: Process) { Vla in p.counters ==> p.seq_ == p.counters[Vla] }

  /** `Signer.__init__`: the counters it starts from, unless the epoch rolled back. */
  function Start(epoch: int, saved: Option<Saved>, keys: set<Role>): Option<Process> {
    if epoch <= 0 || (saved.Some? && saved.value.epoch > epoch) then None
    else
      var counters := map r | r in keys ::
        if saved.Some? && saved.value.epoch == epoch && r in saved.value.counters then saved.value.counters[r] else 0;
      Some(Process(epoch, counters, if Vla in keys then counters[Vla] else 0))
  }

  // ---- the steps ----

  /** Whatever a file covered, a file written by a process ahead of it covers. */
  lemma ReservationCovers(p: Process, file: Option<Saved>, keys: set<Role>, published: seq<Envelope>)
    requires Ahead(p, file, keys) && AllCovered(file, published) && RolesIn(published, keys)
    ensures AllCovered(Some(Saved(p.epoch, p.counters)), published)
  {
    forall i | 0 <= i < |published|
      ensures Covers(Some(Saved(p.epoch, p.counters)), published[i])
    {
      assert Covers(file, published[i]);
    }
  }

  function Signed(p: Process, role: Role): Process
    requires role in p.counters
  {
    p.(counters := p.counters[role := p.counters[role] + 1])
  }

  /** The next counter is new: everything published for the role is before it. */
  lemma NextIsNew(p: Process, file: Option<Saved>, keys: set<Role>, published: seq<Envelope>, e: Envelope)
    requires Ahead(p, file, keys) && AllCovered(file, published) && Ordered(published)
    requires e.role in keys && e.epoch == p.epoch && e.counter == p.counters[e.role] + 1
    ensures Ordered(published + [e])
  {
    forall i | 0 <= i < |published| && published[i].role == e.role
      ensures Before(published[i], e)
    {
      assert Covers(file, published[i]);
    }
  }

  lemma StartIsAhead(epoch: int, saved: Option<Saved>, keys: set<Role>)
    requires Start(epoch, saved, keys).Some?
    ensures Ahead(Start(epoch, saved, keys).value, saved, keys) && InStep(Start(epoch, saved, keys).value)
  {
  }

  ghost predicate RolesIn(published: seq<Envelope>, keys: set<Role>) {
    forall i :: 0 <= i < |published| ==> published[i].role in keys
  }

  /** `struct.pack(">QQ", epoch, counter)` takes 64-bit values only. */
  predicate Packs(epoch: int, counter: int) { 0 <= epoch < TWO64 && 0 <= counter < TWO64 }

  /** A source signer on its host, through any number of processes. `file` is what
      a restarted process reads, `durable` what a power cut leaves of it. */
  class SourceSigner {
    const keys: set<Role>
    var file: Option<Saved>
    var durable: Option<Saved>
    var process: Option<Process>
    ghost var published: seq<Envelope>

    ghost predicate Valid()
      reads this
    {
      Recorded() && (process.Some? ==> InStep(process.value))
    }

    ghost predicate Recorded()
      reads this
    {
      Ordered(published) && IdsMatch(published) && RolesIn(published, keys)
      && AllCovered(file, published) && AllCovered(durable, published)
      && (process.Some? ==> Ahead(process.value, file, keys))
    }

    /** Any earlier content of the counter file may be there. */
    constructor (keys: set<Role>, file: Option<Saved>, durable: Option<Saved>)
      ensures Valid() && this.keys == keys && this.file == file && this.durable == durable
      ensures process == None && published == []
    {
      this.keys, this.file, this.durable, process, published := keys, file, durable, None, [];
    }

    /** A new process; the lock file lets one run at a time. */
    method Boot(epoch: int)
      requires Valid()
      modifies this`process
      ensures Valid()
      ensures process == if old(process).None? then Start(epoch, file, keys) else old(process)
    {
      if process.Some? { return; }
      process := Start(epoch, file, keys);
      if process.Some? { StartIsAhead(epoch, file, keys); }
    }

    /** `CounterStore.reserve`, with `os.replace` and the directory sync. */
    method Reserve(fate: Fate) returns (ok: bool)
      requires process.Some? && Recorded()
      modifies this`file, this`durable
      ensures AllCovered(file, published) && AllCovered(durable, published) && ok == !fate.Torn?
      ensures ok ==> file == durable == Some(Saved(process.value.epoch, process.value.counters))
    {
      var saved := Saved(process.value.epoch, process.value.counters);
      ReservationCovers(process.value, file, keys, published);
      if fate.Torn? {
        if fate.visible { file := Some(saved); }
        if fate.durable { durable := Some(saved); }
        return false;
      }
      file, durable := Some(saved), Some(saved);
      return true;
    }

    /** The send completes: the role has a key, and its next counter packs. */
    predicate Completes(role: Role, fate: Fate)
      requires process.Some? && process.value.counters.Keys == keys
      reads this
    {
      fate.Goes? && role in keys && Packs(process.value.epoch, process.value.counters[role] + 1)
    }

    /** `send`: sign, reserve, publish; any failure ends the process. */
    method Send(role: Role, id: Option<int>, fate: Fate)
      requires Recorded() && process.Some?
      requires if role.Vla?
               then id == Some(process.value.seq_)
                    && (Vla in keys ==> process.value.seq_ == process.value.counters[Vla] + 1)
               else InStep(process.value)
      modifies this`file, this`durable, this`process, this`published
      ensures Valid()
      ensures old(Completes(role, fate)) ==>
                process == Some(Signed(old(process).value, role))
                && published == old(published) + [Envelope(old(process).value.epoch, role,
                                                           process.value.counters[role], id)]
      ensures !old(Completes(role, fate)) ==> process.None? && published == old(published)
    {
      if role !in keys || fate.SignFails? || !Packs(process.value.epoch, process.value.counters[role] + 1) {
        process := None;
        return;
      }
      ghost var e := Envelope(process.value.epoch, role, process.value.counters[role] + 1, id);
      NextIsNew(process.value, file, keys, published, e);
      process := Some(Signed(process.value, role));
      var reserved := Reserve(fate);
      if !reserved || fate.DiesBeforePublish? {
        process := None;
        return;
      }
      published := published + [e];
    }

    /** `propose`: at clock zero nothing happens; a malformed input is sent as a stop. */
    method Propose(stamp: int, fate: Fate)
      requires Valid() && process.Some?
      modifies this`file, this`durable, this`process, this`published
      ensures Valid()
      ensures stamp <= 0 ==> process == old(process) && published == old(published) && file == old(file)
      ensures stamp > 0 && old(Completes(Vla, fate)) ==>
                process.Some? && process.value.seq_ == old(process).value.seq_ + 1
                && published == old(published) + [Envelope(old(process).value.epoch, Vla, process.value.seq_,
                                                           Some(process.value.seq_))]
      ensures stamp > 0 && !old(Completes(Vla, fate)) ==> process.None? && published == old(published)
    {
      if stamp <= 0 { return; }
      process := Some(process.value.(seq_ := process.value.seq_ + 1));
      Send(Vla, Some(process.value.seq_), fate);
    }

    /** The process dies between calls; with the power, the file is what was durable. */
    method Die(power: bool)
      requires Valid()
      modifies this`file, this`process
      ensures Valid() && process == None && file == if power then durable else old(file)
    {
      process := None;
      if power { file := durable; }
    }
  }

  /** What can happen to the host, in any order. */
  datatype Event =
    Booting(epoch: int) | Sending(role: Role, fate: Fate) | Proposing(stamp: int, fate: Fate) | Dying(power: bool)

  /** Over every crash and restart history: published counters strictly increase
      per role across epochs, and every proposal carries its envelope's counter. */
  method RunHistory(signer: SourceSigner, events: seq<Event>)
    requires signer.Valid()
    modifies signer
    ensures signer.Valid() && Ordered(signer.published) && IdsMatch(signer.published)
    ensures old(signer.published) <= signer.published
  {
    for i := 0 to |events|
      invariant signer.Valid() && old(signer.published) <= signer.published
    {
      match events[i] {
        case Booting(epoch) => signer.Boot(epoch);
        case Sending(role, fate) => if signer.process.Some? && !role.Vla? { signer.Send(role, None, fate); }
        case Proposing(stamp, fate) => if signer.process.Some? { signer.Propose(stamp, fate); }
        case Dying(power) => signer.Die(power);
      }
    }
  }
}
