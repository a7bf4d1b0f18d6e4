/** A staged version that an explicit choice took off the outbox stays staged: nobody publishes it any more. */
module Orphans {
  import opened Base
  import opened BrokerState
  import opened BrokerInvariants
  import opened BrokerGuarantees
  import opened ClientState
  import opened SyncSystem
  import opened SyncInvariants
  import opened SyncGuarantees
  import opened Interference

  /** Staged at the broker, and in nobody's outbox. */
  ghost predicate Orphan(s: System, id: JobId) {
    && id in s.q.jobs && s.q.jobs[id].state == STAGING
    && forall e | e in s.clients :: id !in s.clients[e].outbox
  }

  /** The version is staged as before. */
  ghost predicate StaysStaged(q: Queue, id: JobId) {
    id in q.jobs && q.jobs[id].state == STAGING
  }

  lemma AsksStay(q: Queue, d: Device, r: Request, id: JobId)
    requires Inv(q) && Administrative(r) && StaysStaged(q, id)
    ensures StaysStaged(Handle(q, d, r), id)
  {
    hide Inv, Prepare, Upload, Commit, Receipt, RepairPrepare, Upgrade;
    if r.UpgradeRequest? { UpgradeSame(q); }
  }

  lemma PrepareStays(q: Queue, d: Device, m: Manifest, id: JobId)
    requires StaysStaged(q, id) && m.id != id
    ensures StaysStaged(After(q, Prepare(q, d, m)), id)
  {
    PrepareIs(q, d, m);
    hide Prepare, Needed, Sizes, Others, NewObjects;
  }

  lemma CommitStays(q: Queue, d: Device, other: JobId, id: JobId)
    requires StaysStaged(q, id) && other != id
    ensures StaysStaged(After(q, Commit(q, d, other)), id)
  {
    CommitIs(q, d, other);
    hide Commit, Stocked, Tracked;
  }

  lemma ReceiptStays(q: Queue, d: Device, other: JobId, digest: Digest, id: JobId)
    requires StaysStaged(q, id)
    ensures StaysStaged(After(q, Receipt(q, d, other, digest)), id)
  {
    hide Stocked;
  }

  lemma RepairStays(q: Queue, d: Device, other: JobId, id: JobId)
    requires StaysStaged(q, id)
    ensures StaysStaged(After(q, RepairPrepare(q, d, other)), id)
  {
    hide Total, Missing, NewObjects, PlanFor;
  }

  lemma QueueStays(s: System, e: Event, id: JobId)
    requires SystemOk(s) && Orphan(s, id) && Enabled(s, e)
    ensures StaysStaged(Step(s, e).q, id)
  {
    hide SystemOk, Inv, Honest, FilesTracked, Prepare, Upload, Commit, Receipt, RepairPrepare, ClientAfter, Slice, StaysStaged, Truthful, Holding, Unused;
    PartsOf(s);
    assert StaysStaged(s.q, id) by { OrphanStaged(s, id); }
    match e
    case Asks(d, r) => AsksStay(s.q, d, r, id);
    case Prepares(d, other) =>
      OutboxIds(s, d, other);
      PrepareStays(s.q, d, s.clients[d].outbox[other], id);
    case Puts(d, other, h, offset, n) => UploadFrame(s.q, d, other, h, Some(offset), Slice(h, offset, n)); SameJobs(s.q, Step(s, e).q, id);
    case Commits(d, other) => CommitStays(s.q, d, other, id);
    case Confirms(d, other) => ReceiptStays(s.q, d, other, ManifestHash(s.clients[d].inbox[other].manifest), id);
    case Restages(d, other) => RepairStays(s.q, d, other, id);
    case _ =>
  }

  lemma OrphanStaged(s: System, id: JobId)
    requires Orphan(s, id)
    ensures StaysStaged(s.q, id)
  {
  }

  lemma SameJobs(q: Queue, q': Queue, id: JobId)
    requires StaysStaged(q, id) && q'.jobs == q.jobs
    ensures StaysStaged(q', id)
  {
  }

  lemma OutboxIds(s: System, d: Device, id: JobId)
    requires SystemOk(s) && d in s.clients && id in s.clients[d].outbox
    ensures s.clients[d].outbox[id].id == id
  {
    DeviceOf(s, d);
    hide SystemOk, DeviceInv, HeadsCommitted, RowsKnown, BlocksKept, Truthful, Holding;
  }

  lemma OutboxesStay(s: System, e: Event, id: JobId)
    requires Orphan(s, id)
    ensures forall f | f in Step(s, e).clients :: id !in Step(s, e).clients[f].outbox
  {
    hide BrokerAfter, Truthful, Holding, IsCommitted, NoRowOf, NoOutboxOf;
  }

  /** No run of any devices commits it or takes it away. */
  lemma {:induction false} OrphanStays(s: System, events: seq<Event>, id: JobId)
    requires SystemOk(s) && Orphan(s, id)
    ensures Orphan(Run(s, events), id)
    decreases |events|
  {
    if events != [] {
      var t := Step(s, events[0]);
      if Enabled(s, events[0]) { QueueStays(s, events[0], id); }
      OutboxesStay(s, events[0], id);
      StepOk(s, events[0]);
      hide SystemOk, Step;
      OrphanStays(t, events[1..], id);
    }
  }
}
