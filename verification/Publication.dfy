/** Saving the configuration: up to four documents and the in-memory database change together or not at all. */
module Publication {
  import opened Base

  /** Files of the configuration directory. Each document has a scratch file and a rollback file of its own. */
  datatype Name = Document(slot: nat) | Temporary(slot: nat) | Rollback(slot: nat) | Legacy | Migration

  const LOCAL := 0
  const RUNTIME := 1
  const BASELINE := 2
  const SEED := 3
  const SLOTS := 4

  /** Which operations fail; a failed operation changes nothing, except that a failed write leaves rubbish in its scratch file. */
  datatype Faults = Faults(
    snapshot: bool, probe: bool, copy: bool, commit: bool,
    open: nat -> bool, compare: nat -> bool, write: nat -> bool, publish: nat -> bool, restore: nat -> bool, discard: nat -> bool)

  ghost predicate Faultless(f: Faults) {
    && !f.snapshot && !f.probe && !f.copy && !f.commit
    && forall i | 0 <= i < SLOTS :: !f.open(i) && !f.compare(i) && !f.write(i) && !f.publish(i) && !f.restore(i) && !f.discard(i)
  }

  datatype Slot = Slot(changed: bool, existed: bool, published: bool)

  function Doc(files: map<Name, Bytes>, i: nat): Option<Bytes> {
    if Document(i) in files then Some(files[Document(i)]) else None
  }

  /** No scratch or rollback file is left over under the names drawn for this publication. */
  predicate FreshNames(files: map<Name, Bytes>) {
    forall i | 0 <= i < SLOTS :: Temporary(i) !in files && Rollback(i) !in files
  }

  /** What one prepared slot promises. */
  predicate Prepared(files: map<Name, Bytes>, i: nat, text: Bytes, s: Slot) {
    && !s.published && (s.existed <==> Document(i) in files)
    && (if s.changed then Temporary(i) in files && files[Temporary(i)] == text else Doc(files, i) == Some(text))
  }

  predicate Untouched(s: Slot) {
    s == Slot(false, false, false)
  }

  /** Two directories agree but for scratch files. */
  predicate SameButScratch(a: map<Name, Bytes>, b: map<Name, Bytes>) {
    forall n: Name | n in a.Keys + b.Keys && !n.Temporary? :: n in a && n in b && a[n] == b[n]
  }

  class ConfigStore<Db(==)> {
    const shared: Db -> Bytes
    const local: Db -> Bytes
    var files: map<Name, Bytes>
    var memory: Db
    var pending: Db

    constructor (shared: Db -> Bytes, local: Db -> Bytes, files: map<Name, Bytes>, memory: Db)
      ensures this.files == files && this.memory == memory && pending == memory
    {
      this.shared, this.local, this.files, this.memory, this.pending := shared, local, files, memory, memory;
    }

    /** The texts that the slots are to hold. */
    function Texts(): (texts: seq<Bytes>)
      reads this`pending
      ensures |texts| == SLOTS
    {
      [local(pending), shared(pending), shared(pending), shared(pending)]
    }

    /** Compares a document with its new text and writes the text to a scratch file when they differ. */
    method Prepare(i: nat, text: Bytes, f: Faults) returns (ok: bool, s: Slot)
      modifies this`files
      ensures files == old(files) || (Temporary(i) in files && files == old(files)[Temporary(i) := files[Temporary(i)]])
      ensures ok ==> Prepared(files, i, text, s)
      ensures ok && Document(i) in old(files) && old(files)[Document(i)] == text && !f.compare(i) ==> !s.changed && files == old(files)
      ensures !f.open(i) && !f.write(i) ==> ok
    {
      s := Slot(false, false, false);
      if f.open(i) { return false, s; }
      if Document(i) in files {
        s := s.(existed := true);
        if !f.compare(i) && files[Document(i)] == text { return true, s; }
      }
      s := s.(changed := true);
      files := files[Temporary(i) := if f.write(i) then [] else text];
      ok := !f.write(i);
    }

    /** The first save keeps a copy of the legacy document, and never a second time. */
    method KeepLegacy(f: Faults) returns (ok: bool)
      modifies this`files
      ensures files == if ok && Legacy in old(files) && Migration !in old(files)
                       then old(files)[Migration := old(files)[Legacy]] else old(files)
      ensures !f.copy ==> ok
    {
      ok := true;
      if Legacy in files && Migration !in files {
        ok := !f.copy;
        if ok {
          files := files[Migration := files[Legacy]];
        }
      }
    }

    /** Moves a scratch file over its document; a document that was there becomes the rollback file. */
    method PublishSlot(i: nat, existed: bool, f: Faults) returns (ok: bool)
      requires Temporary(i) in files && (existed <==> Document(i) in files)
      modifies this`files
      ensures ok <==> !f.publish(i)
      ensures files == if !ok then old(files)
                       else if existed then
                         old(files)[Rollback(i) := old(files)[Document(i)]][Document(i) := old(files)[Temporary(i)]] - {Temporary(i)}
                       else old(files)[Document(i) := old(files)[Temporary(i)]] - {Temporary(i)}
    {
      ok := !f.publish(i);
      if ok {
        var text := files[Temporary(i)];
        if existed {
          files := files[Rollback(i) := files[Document(i)]];
        }
        files := files[Document(i) := text] - {Temporary(i)};
      }
    }

    /** Undoes one publication. */
    method RestoreSlot(i: nat, existed: bool, f: Faults)
      requires existed ==> Rollback(i) in files
      modifies this`files
      ensures files == if f.restore(i) then old(files)
                       else if existed then old(files)[Document(i) := old(files)[Rollback(i)]] - {Rollback(i)}
                       else old(files) - {Document(i)}
    {
      if !f.restore(i) {
        if existed {
          files := files[Document(i) := files[Rollback(i)]] - {Rollback(i)};
        } else {
          files := files - {Document(i)};
        }
      }
    }

    // -------------------------------------------------------------- all slots

    /** Prepares the two documents, and on the first save the two baselines as well. */
    method PrepareAll(first: bool, f: Faults, slots: array<Slot>) returns (ok: bool)
      requires slots.Length == SLOTS && forall i | 0 <= i < SLOTS :: Untouched(slots[i])
      modifies this`files, slots
      ensures SameButScratch(old(files), files)
      ensures ok ==> AllPrepared(files, slots[..], Texts(), if first then SLOTS else BASELINE)
      ensures (forall i | 0 <= i < SLOTS :: !f.open(i) && !f.write(i)) ==> ok
      ensures forall i | 0 <= i < SLOTS :: !slots[i].published
    {
      var count := if first then SLOTS else BASELINE;
      var texts := Texts();
      ok := true;
      var i := 0;
      while i < count && ok
        invariant i <= count && SameButScratch(old(files), files)
        invariant ok ==> forall j | 0 <= j < i :: Prepared(files, j, texts[j], slots[j])
        invariant forall j | i <= j < SLOTS :: ok ==> Untouched(slots[j])
        invariant forall j | 0 <= j < SLOTS :: !slots[j].published
        invariant (forall j | 0 <= j < SLOTS :: !f.open(j) && !f.write(j)) ==> ok
      {
        var slot;
        ghost var before := files;
        ok, slot := Prepare(i, texts[i], f);
        StillPrepared(before, files, i, texts, slots[..]);
        if ok {
          slots[i] := slot;
        }
        i := i + 1;
      }
    }

    /** Publishes the changed slots in order, up to the first that fails. */
    method PublishAll(f: Faults, slots: array<Slot>, ghost texts: seq<Bytes>, count: nat) returns (ok: bool)
      requires slots.Length == SLOTS && count <= SLOTS && |texts| == SLOTS && AllPrepared(files, slots[..], texts, count)
      modifies this`files, slots
      ensures Partway(old(files), files, slots[..], texts)
      ensures ok ==> forall i | 0 <= i < count :: Doc(files, i) == Some(texts[i])
      ensures forall i | count <= i < SLOTS :: !slots[i].published
      ensures (forall i | 0 <= i < SLOTS :: !f.publish(i)) ==> ok
    {
      ghost var start := files;
      ok := true;
      var i := 0;
      while i < SLOTS && ok
        invariant i <= SLOTS && OthersSame(start, files)
        invariant forall j | 0 <= j < i :: SlotPartway(start, files, j, slots[j], texts[j])
        invariant forall j | i <= j < SLOTS :: Ready(files, j, texts[j], slots[j], count) && Doc(files, j) == Doc(start, j)
        invariant ok ==> forall j | 0 <= j < i && j < count :: Doc(files, j) == Some(texts[j])
        invariant forall j | count <= j < SLOTS :: !slots[j].published
        invariant (forall j | 0 <= j < SLOTS :: !f.publish(j)) ==> ok
      {
        ok := PublishOne(i, f, slots, start, texts, count);
        i := i + 1;
      }
      hide SlotPartway;
      forall j | i <= j < SLOTS
        ensures SlotPartway(start, files, j, slots[j], texts[j])
      {
        ReadyPartway(start, files, j, slots[j], texts[j], count);
      }
    }

    /** Publishes one slot if it changed; the others keep their places. */
    method PublishOne(i: nat, f: Faults, slots: array<Slot>, ghost start: map<Name, Bytes>, ghost texts: seq<Bytes>, count: nat)
      returns (ok: bool)
      requires slots.Length == SLOTS && i < SLOTS && |texts| == SLOTS
      requires Ready(files, i, texts[i], slots[i], count) && Doc(files, i) == Doc(start, i)
      modifies this`files, slots
      ensures forall j | 0 <= j < SLOTS && j != i :: slots[j] == old(slots[j])
      ensures SlotPartway(start, files, i, slots[i], texts[i])
      ensures OnlySlot(old(files), files, i)
      ensures ok && i < count ==> Doc(files, i) == Some(texts[i])
      ensures i >= count ==> ok && !slots[i].published
      ensures !f.publish(i) ==> ok
      ensures OthersSame(start, old(files)) ==> OthersSame(start, files)
      ensures forall j | 0 <= j < SLOTS && j != i && SlotPartway(start, old(files), j, slots[j], texts[j]) ::
                SlotPartway(start, files, j, slots[j], texts[j])
      ensures forall j | 0 <= j < SLOTS && j != i && Ready(old(files), j, texts[j], slots[j], count) :: Ready(files, j, texts[j], slots[j], count)
      ensures forall j | 0 <= j < SLOTS && j != i :: Doc(files, j) == Doc(old(files), j)
    {
      ok := true;
      ghost var before := files;
      if slots[i].changed {
        ok := PublishSlot(i, slots[i].existed, f);
        slots[i] := slots[i].(published := ok);
      }
      assert OnlySlot(before, files, i);
      assert SlotPartway(start, files, i, slots[i], texts[i]);
      OtherSlots(start, before, files, i, slots[..], texts, count);
    }

    /** Puts back what was published, last slot first. */
    method Undo(f: Faults, slots: array<Slot>, ghost start: map<Name, Bytes>, ghost texts: seq<Bytes>)
      requires slots.Length == SLOTS && |texts| == SLOTS && Partway(start, files, slots[..], texts)
      modifies this`files
      ensures OthersSame(start, files)
      ensures forall i | 0 <= i < SLOTS :: SlotUndone(start, files, i, slots[i], texts[i], f)
    {
      var i: nat := SLOTS;
      while i > 0
        invariant OthersSame(start, files)
        invariant forall j | 0 <= j < i :: SlotPartway(start, files, j, slots[j], texts[j])
        invariant forall j | i <= j < SLOTS :: SlotUndone(start, files, j, slots[j], texts[j], f)
      {
        i := i - 1;
        if slots[i].published {
          RestoreSlot(i, slots[i].existed, f);
        }
      }
    }

    /** Deletes what is no longer needed: scratch files always, rollback files after a successful save. */
    method Clean(ok: bool, f: Faults)
      modifies this`files
      ensures OnlyCleaned(old(files), files, ok)
      ensures forall i | 0 <= i < SLOTS && !f.discard(i) :: Temporary(i) !in files && (ok ==> Rollback(i) !in files)
    {
      for i := 0 to SLOTS
        invariant OnlyCleaned(old(files), files, ok)
        invariant forall j | 0 <= j < i && !f.discard(j) :: Temporary(j) !in files && (ok ==> Rollback(j) !in files)
      {
        if !f.discard(i) {
          files := files - {Temporary(i)};
          if ok {
            files := files - {Rollback(i)};
          }
        }
      }
    }

    /** Publishes the documents and commits the database; if anything fails, undoes both. */
    method Save(first: bool, f: Faults, slots: array<Slot>) returns (ok: bool)
      requires slots.Length == SLOTS && forall i | 0 <= i < SLOTS :: Untouched(slots[i])
      modifies this, slots
      ensures memory == (if ok then old(pending) else old(memory)) && pending == memory
      ensures OthersSame(old(files), files)
      ensures ok ==> Saved(old(files), files, old(Texts()), first)
      ensures ok ==> Placed(files, local(old(pending)), shared(old(pending)), first)
      ensures !ok ==> forall i | 0 <= i < SLOTS :: SlotUndone(old(files), files, i, slots[i], old(Texts())[i], f)
      ensures Faultless(f) ==> ok
    {
      hide SameButScratch, Prepared, Saved, SlotUndone;
      ghost var before := files;
      var texts := Texts();
      var count := if first then SLOTS else BASELINE;
      ok := PrepareAll(first, f, slots);
      StartDocs(before, files);
      ghost var start := files;
      if ok {
        ok := PublishAll(f, slots, texts, count);
        if ok {
          SavedFrom(before, start, files, slots[..], texts, first);
          assert Placed(files, local(pending), shared(pending), first) by { PlacedBy(before, files, texts, first); }
        }
      }
      if ok && !f.commit {
        memory := pending;
      } else {
        ok := false;
        pending := memory;
        Undo(f, slots, start, texts);
        UndoneFrom(before, start, files, slots[..], texts, f);
      }
    }

    /**
     Saves the pending state. Either the documents and the database are all new, or the database is as before and so is
     every document whose restoring move succeeded; a document that could not be put back has its old bytes in its rollback file.
     */
    method Commit(f: Faults) returns (ok: bool, ghost stuck: set<nat>)
      requires FreshNames(files)
      modifies this
      ensures memory == (if ok then old(pending) else old(memory)) && pending == memory
      ensures ok ==> Saved(old(files), files, old(Texts()), Document(RUNTIME) !in old(files) && !f.probe)
      ensures ok ==> Doc(files, LOCAL) == Some(local(old(pending))) && Doc(files, RUNTIME) == Some(shared(old(pending)))
      ensures ok && Document(RUNTIME) !in old(files) && !f.probe ==>
                && Doc(files, BASELINE) == Some(shared(old(pending))) && Doc(files, SEED) == Some(shared(old(pending)))
                && (Legacy in old(files) && Migration !in old(files) ==> Migration in files && files[Migration] == old(files)[Legacy])
      ensures !ok ==> PutBack(old(files), files, old(Texts()), stuck, f)
      ensures !ok && (forall i | 0 <= i < SLOTS :: !f.restore(i)) ==> forall i | 0 <= i < SLOTS :: Doc(files, i) == Doc(old(files), i)
      ensures LegacyKept(old(files), files)
      ensures Faultless(f) ==> ok && FreshNames(files)
    {
      hide Saved, SlotUndone, PutBack, LegacyKept, OnlyCleaned, Doc;
      stuck := {};
      ok := !f.snapshot;
      var first := Document(RUNTIME) !in files && !f.probe;
      ghost var before := files;
      if ok && first {
        ok := KeepLegacy(f);
      }
      ghost var kept, texts := files, Texts();
      KeptDocs(before, kept);
      if ok {
        var slots := new Slot[SLOTS](_ => Slot(false, false, false));
        ok := Save(first, f, slots);
        if ok {
          SavedSince(before, kept, files, texts, first);
        } else {
          stuck := set i: nat | i < SLOTS && slots[i].published && f.restore(i);
          UndoneSince(before, kept, files, slots[..], texts, stuck, f);
        }
      } else {
        pending := memory;
        NothingStuck(before, kept, texts, f);
      }
      LegacySince(before, kept, files);
      ghost var ended := files;
      Clean(ok, f);
      Cleaned(before, ended, files, texts, stuck, f, ok, first);
      if !ok && forall i | 0 <= i < SLOTS :: !f.restore(i) { AllBack(before, files, texts, stuck, f); }
    }
  }

  /** After a failed save every document is as before but the stuck ones, which are exactly those published and not put
      back; their old bytes are in their rollback files. */
  ghost predicate PutBack(before: map<Name, Bytes>, files: map<Name, Bytes>, texts: seq<Bytes>, stuck: set<nat>, f: Faults)
    requires |texts| == SLOTS
  {
    && (forall i: nat | i < SLOTS && i !in stuck :: Doc(files, i) == Doc(before, i))
    && forall i | i in stuck ::
         && i < SLOTS && f.restore(i) && Doc(files, i) == Some(texts[i])
         && (Document(i) in before ==> Rollback(i) in files && files[Rollback(i)] == before[Document(i)])
  }

  lemma AllBack(before: map<Name, Bytes>, files: map<Name, Bytes>, texts: seq<Bytes>, stuck: set<nat>, f: Faults)
    requires |texts| == SLOTS && PutBack(before, files, texts, stuck, f) && forall i | 0 <= i < SLOTS :: !f.restore(i)
    ensures forall i | 0 <= i < SLOTS :: Doc(files, i) == Doc(before, i)
  {
    hide Doc;
  }

  /** Only scratch files, and rollback files after a successful save, were deleted. */
  ghost predicate OnlyCleaned(a: map<Name, Bytes>, b: map<Name, Bytes>, ok: bool) {
    && b.Keys <= a.Keys
    && forall n: Name | n in a && !n.Temporary? && !(n.Rollback? && ok) :: n in b && b[n] == a[n]
  }

  lemma KeptDocs(before: map<Name, Bytes>, kept: map<Name, Bytes>)
    requires kept == before || (Legacy in before && Migration !in before && kept == before[Migration := before[Legacy]])
    ensures LegacyKept(before, kept) && forall i | 0 <= i < SLOTS :: Doc(kept, i) == Doc(before, i)
  {
  }

  lemma LegacySince(before: map<Name, Bytes>, kept: map<Name, Bytes>, files: map<Name, Bytes>)
    requires LegacyKept(before, kept) && OthersSame(kept, files)
    ensures LegacyKept(before, files)
  {
  }

  lemma SavedSince(before: map<Name, Bytes>, kept: map<Name, Bytes>, files: map<Name, Bytes>, texts: seq<Bytes>, first: bool)
    requires |texts| == SLOTS && Saved(kept, files, texts, first) && forall i | 0 <= i < SLOTS :: Doc(kept, i) == Doc(before, i)
    ensures Saved(before, files, texts, first)
  {
    hide Doc;
  }

  lemma UndoneSince(before: map<Name, Bytes>, kept: map<Name, Bytes>, files: map<Name, Bytes>, slots: seq<Slot>, texts: seq<Bytes>,
                    stuck: set<nat>, f: Faults)
    requires |slots| == SLOTS && |texts| == SLOTS && forall i | 0 <= i < SLOTS :: Doc(kept, i) == Doc(before, i)
    requires forall i | 0 <= i < SLOTS :: SlotUndone(kept, files, i, slots[i], texts[i], f)
    requires stuck == set i: nat | i < SLOTS && slots[i].published && f.restore(i)
    ensures PutBack(before, files, texts, stuck, f)
  {
    UndoneFrom(before, kept, files, slots, texts, f);
    forall i: nat | i < SLOTS
      ensures SlotUndone(before, files, i, slots[i], texts[i], f)
    {
    }
  }

  lemma NothingStuck(before: map<Name, Bytes>, kept: map<Name, Bytes>, texts: seq<Bytes>, f: Faults)
    requires |texts| == SLOTS && forall i | 0 <= i < SLOTS :: Doc(kept, i) == Doc(before, i)
    ensures PutBack(before, kept, texts, {}, f)
  {
    hide Doc;
  }

  lemma Cleaned(before: map<Name, Bytes>, ended: map<Name, Bytes>, files: map<Name, Bytes>, texts: seq<Bytes>, stuck: set<nat>,
                f: Faults, ok: bool, first: bool)
    requires |texts| == SLOTS && OnlyCleaned(ended, files, ok)
    ensures Saved(before, ended, texts, first) ==> Saved(before, files, texts, first)
    ensures !ok && PutBack(before, ended, texts, stuck, f) ==> PutBack(before, files, texts, stuck, f)
    ensures LegacyKept(before, ended) ==> LegacyKept(before, files)
  {
    forall i: nat | i < SLOTS
      ensures Doc(files, i) == Doc(ended, i)
    {
      assert Document(i) in ended ==> Document(i) in files && files[Document(i)] == ended[Document(i)];
    }
    assert Same(ended, files, Legacy) && Same(ended, files, Migration);
  }

  /** The legacy document is kept, and a kept copy of it is never replaced. */
  predicate LegacyKept(before: map<Name, Bytes>, files: map<Name, Bytes>) {
    Same(before, files, Legacy) && (Migration in before ==> Same(before, files, Migration))
    && (Migration in files && Migration !in before ==> Legacy in before && files[Migration] == before[Legacy])
  }

  /** After a successful save the documents are the new ones; the baselines are written on the first save only. */
  predicate Saved(before: map<Name, Bytes>, files: map<Name, Bytes>, texts: seq<Bytes>, first: bool)
    requires |texts| == SLOTS
  {
    forall i | 0 <= i < SLOTS :: Doc(files, i) == if first || i < BASELINE then Some(texts[i]) else Doc(before, i)
  }

  /** The device's own settings are in the local document, the shared ones in the others that were written. */
  predicate Placed(files: map<Name, Bytes>, own: Bytes, common: Bytes, first: bool) {
    && Doc(files, LOCAL) == Some(own) && Doc(files, RUNTIME) == Some(common)
    && (first ==> Doc(files, BASELINE) == Some(common) && Doc(files, SEED) == Some(common))
  }

  lemma PlacedBy(before: map<Name, Bytes>, files: map<Name, Bytes>, texts: seq<Bytes>, first: bool)
    requires |texts| == SLOTS && Saved(before, files, texts, first) && texts[1] == texts[2] == texts[3]
    ensures Placed(files, texts[0], texts[1], first)
  {
  }

  /** After a failed save a slot is as before, unless putting it back failed: then its old document is in the rollback file. */
  predicate SlotUndone(start: map<Name, Bytes>, files: map<Name, Bytes>, i: nat, s: Slot, text: Bytes, f: Faults) {
    if s.published && f.restore(i) then
      Doc(files, i) == Some(text) && (Document(i) in start ==> Rollback(i) in files && files[Rollback(i)] == start[Document(i)])
    else Doc(files, i) == Doc(start, i)
  }

  /** Nothing changed but the three files of one slot. */
  predicate OnlySlot(a: map<Name, Bytes>, b: map<Name, Bytes>, i: nat) {
    var mine := {Document(i), Temporary(i), Rollback(i)};
    a - mine == b - mine
  }

  lemma OnlySlotSame(a: map<Name, Bytes>, b: map<Name, Bytes>, i: nat, n: Name)
    requires OnlySlot(a, b, i) && n !in {Document(i), Temporary(i), Rollback(i)}
    ensures Same(a, b, n)
  {
    var mine := {Document(i), Temporary(i), Rollback(i)};
    assert n in a <==> n in a - mine;
    assert n in b <==> n in b - mine;
    assert n in a ==> a[n] == (a - mine)[n];
    assert n in b ==> b[n] == (b - mine)[n];
  }

  lemma OtherSlots(start: map<Name, Bytes>, a: map<Name, Bytes>, b: map<Name, Bytes>, i: nat, slots: seq<Slot>, texts: seq<Bytes>, count: nat)
    requires OnlySlot(a, b, i) && |slots| == SLOTS && |texts| == SLOTS
    ensures OthersSame(start, a) ==> OthersSame(start, b)
    ensures forall j | 0 <= j < SLOTS && j != i ::
              && (SlotPartway(start, a, j, slots[j], texts[j]) ==> SlotPartway(start, b, j, slots[j], texts[j]))
              && (Ready(a, j, texts[j], slots[j], count) ==> Ready(b, j, texts[j], slots[j], count))
              && Doc(b, j) == Doc(a, j)
  {
    OnlySlotSame(a, b, i, Legacy);
    OnlySlotSame(a, b, i, Migration);
    forall j: nat | j < SLOTS && j != i
      ensures Same(a, b, Document(j)) && Same(a, b, Temporary(j)) && Same(a, b, Rollback(j))
    {
      OnlySlotSame(a, b, i, Document(j));
      OnlySlotSame(a, b, i, Temporary(j));
      OnlySlotSame(a, b, i, Rollback(j));
    }
    hide OnlySlot;
  }

  lemma ReadyPartway(start: map<Name, Bytes>, files: map<Name, Bytes>, i: nat, s: Slot, text: Bytes, count: nat)
    requires Ready(files, i, text, s, count) && Doc(files, i) == Doc(start, i)
    ensures SlotPartway(start, files, i, s, text)
  {
  }

  lemma StillPrepared(before: map<Name, Bytes>, files: map<Name, Bytes>, i: nat, texts: seq<Bytes>, slots: seq<Slot>)
    requires files == before || (Temporary(i) in files && files == before[Temporary(i) := files[Temporary(i)]])
    requires |texts| == SLOTS && |slots| == SLOTS
    ensures SameButScratch(before, files)
    ensures forall j | 0 <= j < SLOTS && j != i && Prepared(before, j, texts[j], slots[j]) :: Prepared(files, j, texts[j], slots[j])
  {
  }

  lemma StartDocs(before: map<Name, Bytes>, files: map<Name, Bytes>)
    requires SameButScratch(before, files)
    ensures OthersSame(before, files) && forall i | 0 <= i < SLOTS :: Doc(files, i) == Doc(before, i)
  {
    forall i | 0 <= i < SLOTS
      ensures Doc(files, i) == Doc(before, i)
    {
      if Document(i) in before.Keys + files.Keys {
        assert Document(i) in before && Document(i) in files;
      }
    }
    assert Same(before, files, Legacy) by { if Legacy in before.Keys + files.Keys { assert Legacy in before && Legacy in files; } }
    assert Same(before, files, Migration) by { if Migration in before.Keys + files.Keys { assert Migration in before && Migration in files; } }
  }

  lemma SavedFrom(before: map<Name, Bytes>, start: map<Name, Bytes>, files: map<Name, Bytes>, slots: seq<Slot>, texts: seq<Bytes>, first: bool)
    requires |slots| == SLOTS && |texts| == SLOTS && Partway(start, files, slots, texts)
    requires forall i | 0 <= i < SLOTS :: Doc(start, i) == Doc(before, i)
    requires forall i | 0 <= i < SLOTS && (first || i < BASELINE) :: Doc(files, i) == Some(texts[i])
    requires forall i | BASELINE <= i < SLOTS && !first :: !slots[i].published
    ensures Saved(before, files, texts, first)
  {
    hide Doc;
    forall i | 0 <= i < SLOTS
      ensures Doc(files, i) == if first || i < BASELINE then Some(texts[i]) else Doc(before, i)
    {
      assert SlotPartway(start, files, i, slots[i], texts[i]);
    }
  }

  lemma UndoneFrom(before: map<Name, Bytes>, start: map<Name, Bytes>, files: map<Name, Bytes>, slots: seq<Slot>, texts: seq<Bytes>, f: Faults)
    requires |slots| == SLOTS && |texts| == SLOTS
    requires forall i | 0 <= i < SLOTS :: Doc(start, i) == Doc(before, i) && SlotUndone(start, files, i, slots[i], texts[i], f)
    ensures forall i | 0 <= i < SLOTS :: SlotUndone(before, files, i, slots[i], texts[i], f)
  {
    forall i | 0 <= i < SLOTS
      ensures SlotUndone(before, files, i, slots[i], texts[i], f)
    {
      assert Doc(start, i) == Doc(before, i);
    }
  }

  /** A slot that is prepared, or is not part of this save. */
  predicate Ready(files: map<Name, Bytes>, i: nat, text: Bytes, s: Slot, count: nat) {
    if i < count then Prepared(files, i, text, s) else Untouched(s)
  }

  predicate AllPrepared(files: map<Name, Bytes>, slots: seq<Slot>, texts: seq<Bytes>, count: nat)
    requires |slots| == SLOTS && |texts| == SLOTS
  {
    forall i | 0 <= i < SLOTS :: Ready(files, i, texts[i], slots[i], count)
  }

  /** A slot in the middle of a save: published with its old document in the rollback file, or as it was. */
  predicate SlotPartway(start: map<Name, Bytes>, files: map<Name, Bytes>, i: nat, s: Slot, text: Bytes) {
    if s.published then
      && Doc(files, i) == Some(text) && (s.existed <==> Document(i) in start)
      && (s.existed ==> Rollback(i) in files && files[Rollback(i)] == start[Document(i)])
    else Doc(files, i) == Doc(start, i)
  }

  predicate Same(start: map<Name, Bytes>, files: map<Name, Bytes>, n: Name) {
    (n in start <==> n in files) && (n in start ==> files[n] == start[n])
  }

  predicate OthersSame(start: map<Name, Bytes>, files: map<Name, Bytes>) {
    Same(start, files, Legacy) && Same(start, files, Migration)
  }

  predicate Partway(start: map<Name, Bytes>, files: map<Name, Bytes>, slots: seq<Slot>, texts: seq<Bytes>)
    requires |slots| == SLOTS && |texts| == SLOTS
  {
    OthersSame(start, files) && forall i | 0 <= i < SLOTS :: SlotPartway(start, files, i, slots[i], texts[i])
  }
}
