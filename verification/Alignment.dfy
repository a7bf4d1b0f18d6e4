/**
 A device is aligned with the broker when the versions that carry its receipt are the ones up to its recorded heads. That
 is what pulling relies on: `pending` lists by receipts, and a reception is tested against the recorded head.
 */
module Alignment {
  import opened Base
  import opened BrokerState
  import opened BrokerInvariants
  import opened BrokerGuarantees
  import opened ClientState
  import opened SyncSystem
  import opened SyncInvariants
  import opened SyncGuarantees
  import opened Interference

  /** The receipt says the same as the recorded head; for a version with an inbox row the receipt is still to come, and
      the row says what is recorded. */
  ghost predicate AlignedAt(q: Queue, d: Device, c: Client, id: JobId)
    requires id in q.jobs
  {
    if id in c.inbox then c.inbox[id].phase.Applied? ==> id in Upto(q, c, q.jobs[id].manifest.key)
    else d in q.jobs[id].receipts <==> id in Upto(q, c, q.jobs[id].manifest.key)
  }

  /** Agreement on the versions of a dataset that were committed in an earlier state of the broker. */
  ghost predicate AlignedOn(start: Queue, q: Queue, d: Device, c: Client, ds: Dataset) {
    forall id | id in start.jobs && id in q.jobs && start.jobs[id].Committed() && q.jobs[id].manifest.key.dataset == ds :: AlignedAt(q, d, c, id)
  }

  ghost predicate Aligned(q: Queue, d: Device, c: Client, ds: Dataset) {
    AlignedOn(q, q, d, c, ds)
  }

  /** Agreement on the versions of one file. */
  ghost predicate AlignedFile(q: Queue, d: Device, c: Client, k: Key) {
    forall id | id in q.jobs && q.jobs[id].Committed() && q.jobs[id].manifest.key == k :: AlignedAt(q, d, c, id)
  }

  lemma AlignedByFile(q: Queue, d: Device, c: Client, ds: Dataset)
    ensures Aligned(q, d, c, ds) <==> forall k: Key | k.dataset == ds :: AlignedFile(q, d, c, k)
  {
    hide AlignedAt;
    if forall k: Key | k.dataset == ds :: AlignedFile(q, d, c, k) {
      forall id | id in q.jobs && q.jobs[id].Committed() && q.jobs[id].manifest.key.dataset == ds
        ensures AlignedAt(q, d, c, id)
      {
        assert AlignedFile(q, d, c, q.jobs[id].manifest.key);
      }
    }
  }

  /** No version of the device's own was committed without being recorded. */
  predicate OutboxQuiet(q: Queue, c: Client, ds: Dataset) {
    forall id | id in c.outbox && c.outbox[id].key.dataset == ds :: !(id in q.jobs && q.jobs[id].Committed())
  }

  // ---------------------------------------------------------------- what keeps it

  /** Other devices neither align a device nor put it out of line. */
  lemma AlignedThrough(start: Queue, q: Queue, q': Queue, d: Device, c: Client, ds: Dataset)
    requires Evolves(start, q) && Parented(q.jobs) && HeadsCommitted(q, c) && RowsKnown(q, c) && Undisturbed(q, q', d, c)
    ensures AlignedOn(start, q', d, c, ds) <==> AlignedOn(start, q, d, c, ds)
  {
    hide Upto, Parented, HeadsCommitted, Retains, RowsKnown;
    forall id | id in start.jobs && id in q.jobs && start.jobs[id].Committed()
      ensures id in q'.jobs && (AlignedAt(q', d, c, id) <==> AlignedAt(q, d, c, id))
    {
      UptoStable(q, q', c, q.jobs[id].manifest.key);
    }
  }

  /** The versions recorded after a reception. */
  lemma UptoReceived(q: Queue, q': Queue, c: Client, c': Client, m: Manifest, applied: bool)
    requires Parented(q.jobs) && HeadsCommitted(q, c) && IsCommitted(q, m) && Evolves(q, q')
    requires if applied then c'.files == c.files else c'.files == c.files[m.key := m] && m.parent == Recorded(c, m.key)
    ensures forall k :: Upto(q', c', k) == if !applied && k == m.key then Upto(q, c, k) + [m.id] else Upto(q, c, k)
    ensures !applied ==> m.id !in Upto(q, c, m.key)
  {
    if applied {
      forall k
        ensures Upto(q', c', k) == Upto(q, c, k)
      {
        UptoStable(q, q', c, k);
      }
    } else {
      UptoExtends(q, c, m, c');
      forall k
        ensures Upto(q', c', k) == Upto(q, c', k)
      {
        UptoStable(q, q', c', k);
      }
    }
  }

  /** What a reception, from any row or of a version without row and receipt, does to a device. */
  ghost predicate Receives(q: Queue, q': Queue, d: Device, c: Client, c': Client, m: Manifest) {
    && IsCommitted(q, m) && AcksOnly(q, q', d, m.id) && c'.inbox == c.inbox - {m.id}
    && (m.id in c.inbox || d !in q.jobs[m.id].receipts)
    && if AppliedRow(c, m.id) then c'.files == c.files else c'.files == c.files[m.key := m] && m.parent == Recorded(c, m.key)
  }

  /** A reception neither aligns a device nor puts it out of line. */
  lemma AlignedReceived(start: Queue, q: Queue, q': Queue, d: Device, c: Client, c': Client, m: Manifest, ds: Dataset)
    requires Parented(q.jobs) && HeadsCommitted(q, c) && Receives(q, q', d, c, c', m)
    ensures AlignedOn(start, q', d, c', ds) <==> AlignedOn(start, q, d, c, ds)
  {
    hide Upto, Parented, HeadsCommitted, AlignedAt, Receives;
    ReceivesKeeps(q, q', d, c, c', m);
    forall id | id in q.jobs
      ensures AlignedAt(q', d, c', id) <==> AlignedAt(q, d, c, id)
    {
      if id == m.id {
        ReceivedAligned(q, q', d, c, c', m);
      } else {
        OtherAligned(q, q', d, c, c', m, id);
      }
    }
  }

  lemma ReceivedAligned(q: Queue, q': Queue, d: Device, c: Client, c': Client, m: Manifest)
    requires Parented(q.jobs) && HeadsCommitted(q, c) && Receives(q, q', d, c, c', m)
    ensures m.id in q.jobs && m.id in q'.jobs && (AlignedAt(q', d, c', m.id) <==> AlignedAt(q, d, c, m.id))
  {
    UptoReceived(q, q', c, c', m, AppliedRow(c, m.id));
    hide Upto, Parented, HeadsCommitted, Evolves;
  }

  lemma OtherAligned(q: Queue, q': Queue, d: Device, c: Client, c': Client, m: Manifest, id: JobId)
    requires Parented(q.jobs) && HeadsCommitted(q, c) && Receives(q, q', d, c, c', m) && id in q.jobs && id != m.id
    ensures id in q'.jobs && (AlignedAt(q', d, c', id) <==> AlignedAt(q, d, c, id))
  {
    UptoReceived(q, q', c, c', m, AppliedRow(c, m.id));
    hide Upto, Parented, HeadsCommitted;
  }

  lemma ReceivesKeeps(q: Queue, q': Queue, d: Device, c: Client, c': Client, m: Manifest)
    requires Receives(q, q', d, c, c', m)
    ensures q'.jobs.Keys == q.jobs.Keys && forall id | id in q.jobs :: q'.jobs[id].manifest == q.jobs[id].manifest
  {
  }

  // ---------------------------------------------------------------- without explicit choices

  /** A device that made no explicit choice is aligned exactly when none of its own versions is committed unrecorded. */
  lemma UnchosenAligned(q: Queue, d: Device, c: Client, ds: Dataset)
    requires Inv(q) && DeviceOk(q, d, c)
    ensures Aligned(q, d, c, ds) <==> OutboxQuiet(q, c, ds)
  {
    hide Numbered, WellFormed, Headed, OnlyChildren, BoundReceive, FilesTracked, StagedTracked, WithinQuota, Parented, ReceiptsBacked;
    hide HeadsCommitted, ReceiptsExact, RowsInOrder, OutboxInOrder, BlocksKept, StagedFromOutbox, Aligned;
    if OutboxQuiet(q, c, ds) {
      QuietAligned(q, d, c, ds);
    } else {
      var id :| id in c.outbox && c.outbox[id].key.dataset == ds && id in q.jobs && q.jobs[id].Committed();
      OutboxUnaligned(q, d, c, ds, id);
    }
  }

  lemma QuietAligned(q: Queue, d: Device, c: Client, ds: Dataset)
    requires ReceiptsExact(q, d, c) && RowsInOrder(q, d, c) && OutboxInOrder(q, d, c) && OutboxQuiet(q, c, ds)
    ensures Aligned(q, d, c, ds)
  {
    hide Upto, Truthful, Holding, OneRowEach, OneOutboxEach, Overtaken;
    forall id | id in q.jobs && q.jobs[id].Committed() && q.jobs[id].manifest.key.dataset == ds
      ensures AlignedAt(q, d, c, id)
    {
      assert id !in c.outbox;
    }
  }

  lemma OutboxUnaligned(q: Queue, d: Device, c: Client, ds: Dataset, id: JobId)
    requires Parented(q.jobs) && ReceiptsBacked(q.jobs, q.inventory) && HeadsCommitted(q, c) && RowsInOrder(q, d, c) && OutboxInOrder(q, d, c)
    requires id in c.outbox && c.outbox[id].key.dataset == ds && id in q.jobs && q.jobs[id].Committed()
    ensures !Aligned(q, d, c, ds)
  {
    hide Upto, Truthful, Holding, OneRowEach, OneOutboxEach, Parented, HeadsCommitted;
    var m := c.outbox[id];
    assert IsCommitted(q, m) && m.parent == Recorded(c, m.key) && id !in c.inbox && d in q.jobs[id].receipts;
    UptoExtends(q, c, m, c.(files := c.files[m.key := m]));
    hide RowsInOrder, OutboxInOrder, ReceiptsBacked;
    assert !AlignedAt(q, d, c, id);
  }
}
