/** What the steps of other devices leave to a device that is receiving. */
module Interference {
  import opened Base
  import opened BrokerState
  import opened BrokerInvariants
  import opened BrokerGuarantees
  import opened ClientState
  import opened SyncSystem
  import opened SyncInvariants

  /** A version the device is listed for and has not acknowledged. */
  ghost predicate Owed(q: Queue, d: Device, m: Manifest) {
    IsCommitted(q, m) && d in q.jobs[m.id].recipients && d !in q.jobs[m.id].receipts
  }

  /** Recipients stay listed, and blocks of versions still owed to the device stay on the broker. */
  ghost predicate Retains(q: Queue, q': Queue, d: Device) {
    && Evolves(q, q')
    && (forall id | id in q.jobs && d in q.jobs[id].recipients :: d in q'.jobs[id].recipients)
    && (forall id, h | id in q.jobs && d in q.jobs[id].recipients && d !in q.jobs[id].receipts && h in q.jobs[id].blocks && h in q.chunks ::
          h in q'.chunks)
  }

  lemma QueueSameRetains(q: Queue, q': Queue, d: Device)
    requires q'.jobs == q.jobs && q.chunks.Keys <= q'.chunks.Keys
    ensures Retains(q, q', d)
  {
  }

  lemma GcRetains(q: Queue, d: Device)
    requires ReceiptsBacked(q.jobs, q.inventory)
    ensures Retains(q, Gc(q), d)
  {
    forall id, h | id in q.jobs && d in q.jobs[id].recipients && d !in q.jobs[id].receipts && h in q.jobs[id].blocks && h in q.chunks
      ensures h in Gc(q).chunks
    {
      assert q.jobs[id].state != DELIVERED;
      assert !Obsolete(q, h);
    }
  }

  lemma BindRetains(q: Queue, e: Device, ds: Dataset, d: Device)
    requires Bind(q, e, ds).Done?
    ensures Retains(q, Bind(q, e, ds).after, d)
  {
  }

  lemma AsksRetains(q: Queue, e: Device, r: Request, d: Device)
    requires Inv(q) && Administrative(r)
    ensures Retains(q, Handle(q, e, r), d)
  {
    hide Prepare, Upload, Commit, Receipt, RepairPrepare, Upgrade, Retains, Gc;
    match r
    case UpgradeRequest =>
      UpgradeSame(q);
      QueueSameRetains(q, q, d);
    case CollectRequest => GcRetains(q, d);
    case BindRequest(ds) =>
      if Bind(q, e, ds).Done? {
        BindRetains(q, e, ds, d);
      } else {
        QueueSameRetains(q, q, d);
      }
    case _ => QueueSameRetains(q, Handle(q, e, r), d);
  }

  lemma StagedRetains(q: Queue, e: Device, m: Manifest, d: Device)
    requires m.id !in q.jobs
    ensures Retains(q, Staged(q, e, m), d)
  {
    hide Needed, Sizes, Others, NewObjects;
  }

  lemma UploadRetains(q: Queue, e: Device, id: JobId, h: Hash, offset: Option<nat>, payload: Bytes, d: Device)
    ensures Retains(q, After(q, Upload(q, e, id, h, offset, payload)), d)
  {
    UploadFrame(q, e, id, h, offset, payload);
    hide Upload;
    QueueSameRetains(q, After(q, Upload(q, e, id, h, offset, payload)), d);
  }

  lemma UploadFrame(q: Queue, e: Device, id: JobId, h: Hash, offset: Option<nat>, payload: Bytes)
    ensures var q' := After(q, Upload(q, e, id, h, offset, payload)); q'.jobs == q.jobs && q.chunks.Keys <= q'.chunks.Keys
  {
    hide Offset, Appended;
    if h in q.objects {
      AppendedMore(q, h, payload);
    }
  }

  lemma AppendedMore(q: Queue, h: Hash, payload: Bytes)
    requires h in q.objects
    ensures var q' := Appended(q, h, payload).0; q'.jobs == q.jobs && q.chunks.Keys <= q'.chunks.Keys
  {
    hide Part;
  }

  lemma PublishedRetains(q: Queue, id: JobId, d: Device)
    requires id in q.jobs
    ensures Retains(q, Published(q, id), d)
  {
    hide Stocked, Tracked;
  }

  lemma ReceiptedRetains(q: Queue, e: Device, id: JobId, d: Device)
    requires id in q.jobs && q.jobs[id].Committed()
    ensures Retains(q, Receipted(q, e, id), d)
  {
    ReceiptedEvolves(q, e, id);
    hide Stocked;
  }

  lemma RestagedRetains(q: Queue, id: JobId, d: Device)
    requires id in q.jobs
    ensures Retains(q, Restaged(q, id), d)
  {
    hide Missing, NewObjects;
  }

  // ---------------------------------------------------------------- one step of another device

  /** The broker as another device's step leaves it, from the point of view of a device. */
  ghost predicate Undisturbed(q: Queue, q': Queue, d: Device, c: Client) {
    Evolves(q, q') && Unmoved(q, q', d, c) && Retains(q, q', d)
  }

  lemma SameUndisturbed(q: Queue, d: Device, c: Client)
    ensures Undisturbed(q, q, d, c)
  {
  }

  lemma OtherPrepares(s: System, e: Device, id: JobId, d: Device)
    requires SystemOk(s) && Enabled(s, Prepares(e, id)) && e != d && d in s.clients
    ensures Undisturbed(s.q, Step(s, Prepares(e, id)).q, d, s.clients[d])
  {
    PreparesIs(s, e, id);
    var m := s.clients[e].outbox[id];
    assert e in s.clients && DeviceInv(s.q, e, s.clients[e]) && OutboxesApart(s.clients);
    hide SystemOk, Enabled, Step, DeviceInv;
    OutboxFacts(s.q, e, s.clients[e], id);
    PrepareIs(s.q, e, m);
    hide Prepare, Truthful, OutboxesApart, Evolves, Unmoved, Retains, Staged;
    if Prepare(s.q, e, m).Done? && id !in s.q.jobs {
      PreparesOthers(s, e, m);
      StagedRetains(s.q, e, m, d);
    } else {
      SameUndisturbed(s.q, d, s.clients[d]);
    }
  }

  lemma OtherPuts(s: System, e: Device, id: JobId, h: Hash, offset: nat, n: nat, d: Device)
    requires SystemOk(s) && Enabled(s, Puts(e, id, h, offset, n)) && d in s.clients
    ensures Undisturbed(s.q, Step(s, Puts(e, id, h, offset, n)).q, d, s.clients[d])
  {
    hide SystemOk, Enabled, Step, Slice, Upload, Undisturbed, Inv, Honest, FilesTracked, Handle;
    PutsIs(s, e, id, h, offset, n);
    PartsOf(s);
    SliceIs(h, offset, n);
    PutUndisturbed(s.q, e, id, h, offset, Slice(h, offset, n), d, s.clients[d]);
  }

  lemma PutUndisturbed(q: Queue, e: Device, id: JobId, h: Hash, offset: nat, payload: Bytes, d: Device, c: Client)
    requires FilesTracked(q.objects, q.chunks, q.uploads) && Honest(q) && offset <= |h.preimage|
    requires offset + |payload| <= |h.preimage| && payload == h.preimage[offset..offset + |payload|]
    ensures Undisturbed(q, After(q, Upload(q, e, id, h, Some(offset), payload)), d, c)
  {
    hide Upload, FilesTracked, Honest, Evolves, Unmoved, Retains, Quiet;
    PutQuiet(q, e, id, h, offset, payload);
    UploadRetains(q, e, id, h, Some(offset), payload, d);
    QuietUnmoved(q, After(q, Upload(q, e, id, h, Some(offset), payload)), d, c);
  }

  lemma OtherCommits(s: System, e: Device, id: JobId, d: Device)
    requires SystemOk(s) && Enabled(s, Commits(e, id)) && e != d && d in s.clients
    ensures Undisturbed(s.q, Step(s, Commits(e, id)).q, d, s.clients[d])
  {
    CommitsIs(s, e, id);
    CommitIs(s.q, e, id);
    assert DeviceInv(s.q, d, s.clients[d]) && ReceiptsBacked(s.q.jobs, s.q.inventory);
    hide SystemOk, Enabled, Step, Published, Commit, ReceiptsBacked, Evolves, Unmoved, Retains, DeviceInv;
    if Commit(s.q, e, id).Done? && s.q.jobs[id].state == STAGING {
      NotMine(s.q, d, s.clients[d], id);
      CommitUnmoved(s.q, id, d, s.clients[d]);
      PublishedRetains(s.q, id, d);
    } else {
      SameUndisturbed(s.q, d, s.clients[d]);
    }
  }

  lemma OtherRestages(s: System, e: Device, id: JobId, d: Device)
    requires Enabled(s, Restages(e, id)) && d in s.clients
    ensures Undisturbed(s.q, Step(s, Restages(e, id)).q, d, s.clients[d])
  {
    RestagesIs(s, e, id);
    hide Enabled, Step, Restaged, Total, Quiet, Handle, Evolves, Unmoved, Retains, Missing, Absent;
    if RepairPrepare(s.q, e, id).Done? {
      RestageQuiet(s.q, id);
      RestagedRetains(s.q, id, d);
      QuietUnmoved(s.q, Restaged(s.q, id), d, s.clients[d]);
    } else {
      SameUndisturbed(s.q, d, s.clients[d]);
    }
  }

  lemma OtherConfirms(s: System, e: Device, id: JobId, d: Device)
    requires Enabled(s, Confirms(e, id)) && e != d && d in s.clients
    ensures Undisturbed(s.q, Step(s, Confirms(e, id)).q, d, s.clients[d])
  {
    ConfirmsIs(s, e, id);
    var m := s.clients[e].inbox[id].manifest;
    hide Enabled, Step, Evolves, Unmoved, Retains, Receipted;
    if Receipt(s.q, e, id, ManifestHash(m)).Done? {
      ReceiptUnmoved(s.q, e, id, d, s.clients[d]);
      ReceiptedRetains(s.q, e, id, d);
    } else {
      SameUndisturbed(s.q, d, s.clients[d]);
    }
  }

  lemma OtherAsks(s: System, e: Device, r: Request, d: Device)
    requires SystemOk(s) && Enabled(s, Asks(e, r)) && d in s.clients
    ensures Undisturbed(s.q, Step(s, Asks(e, r)).q, d, s.clients[d])
  {
    assert Step(s, Asks(e, r)).q == Handle(s.q, e, r) && Administrative(r) && Inv(s.q) && Honest(s.q);
    hide SystemOk, Inv, Honest, Handle, Quiet, Evolves, Unmoved, Retains, Enabled, Step;
    AdministrativeQuiet(s.q, e, r);
    AsksRetains(s.q, e, r, d);
    QuietUnmoved(s.q, Handle(s.q, e, r), d, s.clients[d]);
  }

  lemma OtherStep(s: System, e: Event, d: Device)
    requires SystemOk(s) && e.d != d && d in s.clients
    ensures var s' := Step(s, e);
      d in s'.clients && s'.clients[d] == s.clients[d] && Undisturbed(s.q, s'.q, d, s.clients[d])
  {
    OtherClient(s, e, d);
    if Enabled(s, e) && !IsLocal(e) {
      hide SystemOk, Enabled, Step, Undisturbed;
      match e {
        case Asks(f, r) => OtherAsks(s, f, r, d);
        case Prepares(f, id) => OtherPrepares(s, f, id, d);
        case Puts(f, id, h, offset, n) => OtherPuts(s, f, id, h, offset, n, d);
        case Commits(f, id) => OtherCommits(s, f, id, d);
        case Restages(f, id) => OtherRestages(s, f, id, d);
        case Confirms(f, id) => OtherConfirms(s, f, id, d);
      }
    } else {
      SameUndisturbed(s.q, d, s.clients[d]);
    }
  }

  lemma OtherClient(s: System, e: Event, d: Device)
    requires e.d != d && d in s.clients
    ensures var s' := Step(s, e); d in s'.clients && s'.clients[d] == s.clients[d]
    ensures (Enabled(s, e) && !IsLocal(e)) || Step(s, e).q == s.q
  {
    if Enabled(s, e) && IsLocal(e) {
      LocalIs(s, e);
    }
    hide BrokerAfter, ClientAfter, Enabled;
  }

  // ---------------------------------------------------------------- any number of steps

  predicate ByOthers(events: seq<Event>, d: Device) {
    forall i | 0 <= i < |events| :: events[i].d != d
  }

  lemma UndisturbedChain(q: Queue, q1: Queue, q2: Queue, d: Device, c: Client)
    requires Undisturbed(q, q1, d, c) && Undisturbed(q1, q2, d, c)
    ensures Undisturbed(q, q2, d, c)
  {
    UnmovedChain(q, q1, q2, d, c);
    RetainsChain(q, q1, q2, d, c);
  }

  lemma UnmovedChain(q: Queue, q1: Queue, q2: Queue, d: Device, c: Client)
    requires Evolves(q, q1) && Evolves(q1, q2) && Unmoved(q, q1, d, c) && Unmoved(q1, q2, d, c)
    ensures Evolves(q, q2) && Unmoved(q, q2, d, c)
  {
  }

  lemma RetainsChain(q: Queue, q1: Queue, q2: Queue, d: Device, c: Client)
    requires Retains(q, q1, d) && Retains(q1, q2, d) && Unmoved(q, q1, d, c)
    ensures Retains(q, q2, d)
  {
  }

  /** Whatever steps the other devices take, choices between versions included, a device's own state is untouched,
      nothing that concerns it at the broker moves, and what it is still owed stays listed and stored. */
  lemma {:induction false} OthersRun(s: System, events: seq<Event>, d: Device)
    requires SystemOk(s) && ByOthers(events, d) && d in s.clients
    ensures var s' := Run(s, events);
      SystemOk(s') && d in s'.clients && s'.clients[d] == s.clients[d] && Undisturbed(s.q, s'.q, d, s.clients[d])
    decreases |events|
  {
    hide SystemOk, Step, Undisturbed;
    if events == [] {
      SameUndisturbed(s.q, d, s.clients[d]);
    } else {
      OtherStep(s, events[0], d);
      StepOk(s, events[0]);
      var t := Step(s, events[0]);
      OthersRun(t, events[1..], d);
      UndisturbedChain(s.q, t.q, Run(s, events).q, d, s.clients[d]);
    }
  }

  // ---------------------------------------------------------------- what the device's own acknowledgement leaves

  /** Only one version was acknowledged by the device; recipients and other receipts are as before. */
  ghost predicate AcksOnly(q: Queue, q': Queue, d: Device, done: JobId) {
    && Evolves(q, q') && q'.jobs.Keys == q.jobs.Keys
    && forall id | id in q.jobs ::
         && q'.jobs[id].receipts == (if id == done then q.jobs[id].receipts + {d} else q.jobs[id].receipts)
         && q'.jobs[id].recipients == q.jobs[id].recipients
         && q'.jobs[id].Committed() == q.jobs[id].Committed()
  }

  /** The blocks of the other versions the device is owed are still on the broker. */
  ghost predicate KeepsOthers(q: Queue, q': Queue, d: Device, done: JobId) {
    forall id, h | id in q.jobs && id != done && d in q.jobs[id].recipients && d !in q.jobs[id].receipts
                   && h in q.jobs[id].blocks && h in q.chunks :: h in q'.chunks
  }

  lemma ReceiptAcks(q: Queue, d: Device, id: JobId)
    requires id in q.jobs && q.jobs[id].Committed()
    ensures AcksOnly(q, Receipted(q, d, id), d, id) && Receipted(q, d, id).chunks == q.chunks
  {
    ReceiptedEvolves(q, d, id);
    hide Stocked;
  }

  lemma GcKeepsOthers(q: Queue, r: Queue, d: Device, done: JobId)
    requires AcksOnly(q, r, d, done) && r.chunks == q.chunks && Retains(r, Gc(r), d)
    ensures KeepsOthers(q, Gc(r), d, done) && AcksOnly(q, Gc(r), d, done)
  {
    assert Gc(r).jobs == r.jobs;
    hide Gc;
  }

  /** An acknowledgement of one version, collection included, leaves the others owed and their blocks in place. */
  lemma AcknowledgedFrame(q: Queue, d: Device, m: Manifest)
    requires Inv(q) && Receipt(q, d, m.id, ManifestHash(m)).Done?
    ensures var q' := After(q, Acknowledge(q, d, m.id, ManifestHash(m))); AcksOnly(q, q', d, m.id) && KeepsOthers(q, q', d, m.id)
  {
    var r := Receipted(q, d, m.id);
    ReceiptedInv(q, d, m.id);
    assert ReceiptsBacked(r.jobs, r.inventory);
    hide Inv, ReceiptsBacked, Receipted, AcksOnly, Retains, Gc, KeepsOthers;
    ReceiptAcks(q, d, m.id);
    GcRetains(r, d);
    GcKeepsOthers(q, r, d, m.id);
  }
}
