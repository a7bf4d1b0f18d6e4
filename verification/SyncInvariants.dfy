/** Every step of every device keeps the invariant of the whole system. */
module SyncInvariants {
  import opened Base
  import opened BrokerState
  import opened BrokerInvariants
  import opened BrokerGuarantees
  import opened ClientState
  import opened Publishing
  import opened SyncSystem

  // ---------------------------------------------------------------- manifests

  lemma TruthfulSizes(m: Manifest)
    requires Truthful(m)
    ensures forall h | h in Sizes(m.chunks) :: Sizes(m.chunks)[h] == |h.preimage|
    ensures Sizes(m.chunks).Keys == Hashes(m.chunks)
  {
    SizesKeys(m.chunks);
  }

  // ---------------------------------------------------------------- requests that move no receipt

  /** Versions, receipts and inventory are as before; only deliveries, objects and files may differ. */
  ghost predicate Quiet(q: Queue, q': Queue) {
    && SameHistory(q.jobs, q'.jobs) && q'.inventory == q.inventory
    && forall id | id in q.jobs :: q'.jobs[id].receipts == q.jobs[id].receipts && (q'.jobs[id].state == STAGING <==> q.jobs[id].state == STAGING)
  }

  lemma QuietUnmoved(q: Queue, q': Queue, d: Device, c: Client)
    requires Quiet(q, q')
    ensures Evolves(q, q') && Unmoved(q, q', d, c)
  {
  }

  lemma SameQuiet(q: Queue, q': Queue)
    requires q'.jobs == q.jobs && q'.inventory == q.inventory
    ensures Quiet(q, q')
  {
  }

  lemma BindQuiet(q: Queue, d: Device, ds: Dataset)
    requires Bind(q, d, ds).Done?
    ensures Quiet(q, Bind(q, d, ds).after)
  {
  }

  lemma GcHonest(q: Queue)
    requires Honest(q)
    ensures Honest(Gc(q))
  {
    hide Truthful, Obsolete;
  }

  lemma SameHonest(q: Queue, q': Queue)
    requires q'.objects == q.objects && q'.uploads == q.uploads && q'.jobs.Keys == q.jobs.Keys
    requires forall id | id in q.jobs :: q'.jobs[id].manifest == q.jobs[id].manifest
    requires Honest(q)
    ensures Honest(q')
  {
    hide Truthful;
  }

  lemma AdministrativeQuiet(q: Queue, d: Device, r: Request)
    requires Inv(q) && Administrative(r) && Honest(q)
    ensures Quiet(q, Handle(q, d, r)) && Honest(Handle(q, d, r))
  {
    hide Prepare, Upload, Commit, Receipt, RepairPrepare, Quiet, Honest, Inv, Upgrade;
    match r
    case UpgradeRequest =>
      UpgradeSame(q);
      SameQuiet(q, q);
    case CollectRequest =>
      GcHonest(q);
      SameQuiet(q, Gc(q));
    case BindRequest(ds) =>
      if Bind(q, d, ds).Done? {
        BindQuiet(q, d, ds);
        SameHonest(q, Bind(q, d, ds).after);
      } else {
        SameQuiet(q, q);
      }
    case _ =>
      SameQuiet(q, Handle(q, d, r));
      SameHonest(q, Handle(q, d, r));
  }

  lemma AdministrativeKnown(q: Queue, d: Device, r: Request, devices: set<Device>)
    requires Inv(q) && Administrative(r) && d in devices && KnownDevices(q, devices)
    ensures KnownDevices(Handle(q, d, r), devices)
  {
    hide Inv, Obsolete;
    match r
    case UpgradeRequest => UpgradeSame(q);
    case _ =>
  }

  lemma RestageQuiet(q: Queue, id: JobId)
    requires id in q.jobs && q.jobs[id].state == READY
    ensures Quiet(q, Restaged(q, id))
  {
    hide Sizes, Missing, NewObjects;
  }

  lemma MissingHonest(q: Queue, id: JobId)
    requires WellFormed(q.jobs) && Honest(q) && id in q.jobs
    ensures forall h | h in Missing(q, q.jobs[id]) :: Missing(q, q.jobs[id])[h] == |h.preimage|
  {
    TruthfulSizes(q.jobs[id].manifest);
    hide Sizes, Truthful, ValidManifest, Wanted;
  }

  lemma NewObjectsHonest(objects: map<Hash, Object>, extra: map<Hash, nat>)
    requires forall h | h in objects :: objects[h].size == |h.preimage|
    requires forall h | h in extra :: extra[h] == |h.preimage|
    ensures var all := objects + NewObjects(Absent(extra, objects)); forall h | h in all :: all[h].size == |h.preimage|
  {
  }

  lemma RestageHonest(q: Queue, id: JobId, devices: set<Device>)
    requires WellFormed(q.jobs) && Honest(q) && KnownDevices(q, devices) && id in q.jobs
    ensures Honest(Restaged(q, id)) && KnownDevices(Restaged(q, id), devices)
  {
    MissingHonest(q, id);
    hide Truthful, Missing, WellFormed, NewObjects;
    NewObjectsHonest(q.objects, Missing(q, q.jobs[id]));
  }

  lemma PutQuiet(q: Queue, d: Device, id: JobId, h: Hash, offset: nat, payload: Bytes)
    requires FilesTracked(q.objects, q.chunks, q.uploads) && Honest(q) && offset <= |h.preimage|
    requires offset + |payload| <= |h.preimage| && payload == h.preimage[offset..offset + |payload|]
    ensures var q' := After(q, Upload(q, d, id, h, Some(offset), payload));
      Quiet(q, q') && Honest(q') && q'.bindings == q.bindings && q'.jobs == q.jobs
  {
    hide FilesTracked, Upload, Honest, Quiet, Appended;
    var o := Upload(q, d, id, h, Some(offset), payload);
    if After(q, o) == q {
      SameQuiet(q, q);
    } else {
      UploadChanges(q, d, id, h, Some(offset), payload);
      assert q.objects[h].size == |h.preimage| by { HonestSize(q, h); }
      SliceHonest(q, h, payload);
    }
  }

  lemma AppendedRest(q: Queue, h: Hash, payload: Bytes)
    requires h in q.objects
    ensures var q' := Appended(q, h, payload).0; q' == q.(objects := q'.objects, chunks := q'.chunks, uploads := q'.uploads)
  {
  }

  lemma HonestSize(q: Queue, h: Hash)
    requires Honest(q) && h in q.objects
    ensures q.objects[h].size == |h.preimage|
  {
  }

  lemma HonestPart(q: Queue, h: Hash)
    requires Honest(q) && h in q.objects
    ensures Part(q, h) <= h.preimage && q.objects[h].size == |h.preimage|
  {
  }

  lemma SliceHonest(q: Queue, h: Hash, payload: Bytes)
    requires Honest(q) && h in q.objects && h !in q.chunks && |Part(q, h)| + |payload| <= q.objects[h].size
    requires payload == h.preimage[|Part(q, h)|..|Part(q, h)| + |payload|]
    ensures var q' := Appended(q, h, payload).0;
      Quiet(q, q') && Honest(q') && q'.bindings == q.bindings && q'.jobs == q.jobs
  {
    hide Appended, Filled, Partly, Quiet, Honest, Part;
    HonestPart(q, h);
    SliceAppended(q, h, payload);
    AppendedRest(q, h, payload);
    SameQuiet(q, Appended(q, h, payload).0);
    if |Part(q, h)| + |payload| == |h.preimage| {
      FilledHonest(q, {h});
    } else {
      PartlyHonest(q, h, |Part(q, h)| + |payload|);
    }
  }

  lemma FilledHonest(q: Queue, hs: set<Hash>)
    requires Honest(q)
    ensures Honest(Filled(q, hs))
  {
    hide Truthful;
  }

  lemma PartlyHonest(q: Queue, h: Hash, n: nat)
    requires Honest(q) && n <= |h.preimage|
    ensures Honest(Partly(q, h, n))
  {
    hide Truthful;
  }

  // ---------------------------------------------------------------- prepare

  lemma PrepareUnmoved(q: Queue, d: Device, m: Manifest, e: Device, c: Client)
    requires m.id !in q.jobs && m.origin == d && e != d && m.id !in c.outbox
    ensures Evolves(q, Staged(q, d, m)) && Unmoved(q, Staged(q, d, m), e, c)
  {
    hide Needed, Sizes, Others;
  }

  lemma PrepareOwn(q: Queue, d: Device, m: Manifest, c: Client)
    requires Inv(q) && DeviceOk(q, d, c) && m.id in c.outbox && c.outbox[m.id] == m && m.id !in q.jobs
    ensures DeviceOk(Staged(q, d, m), d, c)
  {
    hide Numbered, WellFormed, Parented, Headed, OnlyChildren, ReceiptsBacked, BoundReceive, FilesTracked, StagedTracked, WithinQuota;
    hide HeadsCommitted, ReceiptsExact, RowsInOrder, OutboxInOrder, BlocksKept, StagedFromOutbox, Staged;
    var q' := Staged(q, d, m);
    StagedKeeps(q, d, m);
    PrepareOwnReceipts(q, d, m, c);
    RowsFrame(q, q', d, c);
    PrepareOwnOutbox(q, d, m, c);
    PrepareHeld(q, d, m, c);
    PrepareStaged(q, d, m, c);
  }

  lemma PrepareHeld(q: Queue, d: Device, m: Manifest, c: Client)
    requires OutboxInOrder(q, d, c) && BlocksKept(q, d, c) && m.id in c.outbox && c.outbox[m.id] == m && m.id !in q.jobs
    ensures BlocksKept(Staged(q, d, m), d, c)
  {
    hide Needed, Sizes, Others, BlocksKept, Truthful, Staged, Upto, Overtaken, OneOutboxEach;
    TruthfulSizes(m);
    PrepareBlocks(q, d, m, c);
  }

  lemma PrepareOwnReceipts(q: Queue, d: Device, m: Manifest, c: Client)
    requires Parented(q.jobs) && HeadsCommitted(q, c) && ReceiptsExact(q, d, c) && m.id !in q.jobs
    ensures HeadsCommitted(Staged(q, d, m), c) && ReceiptsExact(Staged(q, d, m), d, c)
  {
    hide Needed, Sizes, Others;
    var q' := Staged(q, d, m);
    forall id | id in q.jobs
      ensures Upto(q', c, q.jobs[id].manifest.key) == Upto(q, c, q.jobs[id].manifest.key)
    {
      UptoStable(q, q', c, q.jobs[id].manifest.key);
    }
  }

  lemma PrepareOwnOutbox(q: Queue, d: Device, m: Manifest, c: Client)
    requires Parented(q.jobs) && HeadsCommitted(q, c) && OutboxInOrder(q, d, c)
    requires m.id !in q.jobs && m.id in c.outbox && c.outbox[m.id] == m
    ensures OutboxInOrder(Staged(q, d, m), d, c)
  {
    hide Needed, Sizes, Others, Truthful, Holding;
    var q' := Staged(q, d, m);
    forall id | id in c.outbox
      ensures Upto(q', c, c.outbox[id].key) == Upto(q, c, c.outbox[id].key)
    {
      UptoStable(q, q', c, c.outbox[id].key);
    }
  }

  lemma PrepareBlocks(q: Queue, d: Device, m: Manifest, c: Client)
    requires BlocksKept(q, d, c) && m.id !in q.jobs && Sizes(m.chunks).Keys <= c.cache
    ensures BlocksKept(Staged(q, d, m), d, c)
  {
    hide Needed, Sizes, Others, Holding;
  }

  lemma PrepareStaged(q: Queue, d: Device, m: Manifest, c: Client)
    requires StagedFromOutbox(q, d, c) && m.id !in q.jobs && m.id in c.outbox
    ensures StagedFromOutbox(Staged(q, d, m), d, c)
  {
    hide Needed, Sizes, Others;
  }

  lemma PrepareCore(q: Queue, d: Device, m: Manifest, c: Client)
    requires DeviceCore(q, d, c) && m.id in c.outbox && c.outbox[m.id] == m && m.id !in q.jobs
    ensures DeviceCore(Staged(q, d, m), d, c)
  {
    hide Needed, Sizes, Others, BlocksKept, Truthful, Holding, Staged;
    PrepareBlocksOf(q, d, m, c);
    StagedKeeps(q, d, m);
    CoreKept(q, Staged(q, d, m), d, m, c);
  }

  lemma PrepareBlocksOf(q: Queue, d: Device, m: Manifest, c: Client)
    requires DeviceCore(q, d, c) && m.id in c.outbox && c.outbox[m.id] == m && m.id !in q.jobs
    ensures BlocksKept(Staged(q, d, m), d, c)
  {
    TruthfulSizes(m);
    assert Truthful(m) && Holding(c, m) && BlocksKept(q, d, c) by { hide Truthful, Holding, BlocksKept, Staged; }
    PrepareBlocks(q, d, m, c);
    hide Needed, Sizes, Others, BlocksKept, Truthful, Staged, DeviceCore;
  }

  lemma StagedKeeps(q: Queue, d: Device, m: Manifest)
    requires m.id !in q.jobs
    ensures var q' := Staged(q, d, m);
      q'.jobs.Keys == q.jobs.Keys + {m.id} && q'.jobs[m.id].manifest == m && forall id | id in q.jobs :: q'.jobs[id] == q.jobs[id]
  {
    hide Needed, Sizes, Others;
  }

  lemma CoreKept(q: Queue, q': Queue, d: Device, m: Manifest, c: Client)
    requires DeviceCore(q, d, c) && m.id in c.outbox && c.outbox[m.id] == m && BlocksKept(q', d, c)
    requires q'.jobs.Keys == q.jobs.Keys + {m.id} && q'.jobs[m.id].manifest == m && m.id !in q.jobs
    requires forall id | id in q.jobs :: q'.jobs[id] == q.jobs[id]
    ensures DeviceCore(q', d, c)
  {
    hide BlocksKept, Truthful, Holding;
  }

  lemma PrepareOwnInv(q: Queue, d: Device, m: Manifest, c: Client)
    requires Inv(q) && DeviceInv(q, d, c) && m.id in c.outbox && c.outbox[m.id] == m && m.id !in q.jobs
    ensures DeviceInv(Staged(q, d, m), d, c)
  {
    hide Inv, DeviceOk, DeviceCore, Staged;
    if c.chose { PrepareCore(q, d, m, c); } else { PrepareOwn(q, d, m, c); }
  }

  lemma NeededHonest(q: Queue, d: Device, m: Manifest)
    requires Truthful(m)
    ensures forall h | h in Needed(q, d, m) :: Needed(q, d, m)[h] == |h.preimage|
  {
    TruthfulSizes(m);
    hide Truthful;
  }

  lemma StagedHonest(q: Queue, d: Device, m: Manifest)
    requires Honest(q) && Truthful(m)
    ensures Honest(Staged(q, d, m))
  {
    hide Truthful, Sizes, Needed, NewObjects, Others, Absent;
    NeededHonest(q, d, m);
    NewObjectsHonest(q.objects, Needed(q, d, m));
  }

  lemma StagedKnown(q: Queue, d: Device, m: Manifest, devices: set<Device>)
    requires KnownDevices(q, devices) && d in devices
    ensures KnownDevices(Staged(q, d, m), devices)
  {
    hide Sizes, Needed, NewObjects;
    assert Others(q, m.key.dataset, d) <= devices;
    hide Others;
  }

  // ---------------------------------------------------------------- commit

  lemma CommitUnmoved(q: Queue, id: JobId, e: Device, c: Client)
    requires ReceiptsBacked(q.jobs, q.inventory) && id in q.jobs && q.jobs[id].state == STAGING
    requires q.jobs[id].manifest.origin != e && id !in c.outbox
    ensures Evolves(q, Published(q, id)) && Unmoved(q, Published(q, id), e, c)
  {
    StockedKeys(q.inventory, q.jobs[id].manifest.origin, q.jobs[id].manifest.chunks);
    hide Stocked, Sizes, Tracked;
  }

  /** Only a version whose parent is still the device's recorded head can be committed from the outbox. */
  lemma CommittableOnHead(q: Queue, d: Device, c: Client, m: Manifest)
    requires Parented(q.jobs) && Headed(q.jobs, q.heads) && HeadsCommitted(q, c)
    requires HeadOf(q, m.key) == m.parent
    ensures !Overtaken(q, c, m)
  {
    if m.key in c.files {
      LineageMembers(q.jobs, q.heads[m.key], c.files[m.key].id);
      if m.parent.Some? && m.parent.value in Upto(q, c, m.key) && m.parent.value != c.files[m.key].id {
        LineageMembers(q.jobs, c.files[m.key].id, m.parent.value);
      }
    }
  }

  lemma CommitOwnReceipts(q: Queue, d: Device, id: JobId, c: Client)
    requires Parented(q.jobs) && HeadsCommitted(q, c) && ReceiptsExact(q, d, c)
    requires id in q.jobs && q.jobs[id].state == STAGING && q.jobs[id].manifest.origin == d && id in c.outbox
    ensures HeadsCommitted(Published(q, id), c) && ReceiptsExact(Published(q, id), d, c)
  {
    hide Stocked, Tracked;
    var q' := Published(q, id);
    forall a | a in q.jobs
      ensures Upto(q', c, q.jobs[a].manifest.key) == Upto(q, c, q.jobs[a].manifest.key)
    {
      UptoStable(q, q', c, q.jobs[a].manifest.key);
    }
  }

  lemma CommitOwnOutbox(q: Queue, d: Device, id: JobId, c: Client)
    requires Parented(q.jobs) && HeadsCommitted(q, c) && OutboxInOrder(q, d, c)
    requires id in q.jobs && q.jobs[id].state == STAGING && id in c.outbox && !Overtaken(q, c, c.outbox[id])
    ensures OutboxInOrder(Published(q, id), d, c)
  {
    hide Truthful, Holding, Published, Upto, OneOutboxEach, HeadsCommitted, Parented;
    var q' := Published(q, id);
    PublishedKeeps(q, id);
    forall a | a in c.outbox
      ensures Upto(q', c, c.outbox[a].key) == Upto(q, c, c.outbox[a].key)
    {
      UptoStable(q, q', c, c.outbox[a].key);
    }
  }

  lemma PublishedKeeps(q: Queue, id: JobId)
    requires id in q.jobs
    ensures var q' := Published(q, id);
      && Evolves(q, q') && q'.jobs.Keys == q.jobs.Keys && q'.jobs[id].Committed()
      && forall a | a in q.jobs && a != id :: q'.jobs[a] == q.jobs[a]
  {
    hide Stocked, Tracked;
  }

  lemma CommitBlocks(q: Queue, d: Device, id: JobId, c: Client)
    requires BlocksKept(q, d, c) && WellFormed(q.jobs) && id in q.jobs && q.jobs[id].manifest.origin == d
    ensures BlocksKept(Published(q, id), d, c)
  {
    StockedKeys(q.inventory, d, q.jobs[id].manifest.chunks);
    hide Stocked, Tracked, Holding, Sizes, ValidManifest;
  }

  lemma CommitStaged(q: Queue, d: Device, id: JobId, c: Client)
    requires StagedFromOutbox(q, d, c) && id in q.jobs
    ensures StagedFromOutbox(Published(q, id), d, c)
  {
    hide Stocked, Tracked;
  }

  lemma PublishedEvolves(q: Queue, id: JobId)
    requires id in q.jobs
    ensures Evolves(q, Published(q, id))
  {
    hide Stocked, Tracked;
  }

  lemma OwnStaged(q: Queue, d: Device, id: JobId, c: Client)
    requires StagedFromOutbox(q, d, c) && OutboxInOrder(q, d, c)
    requires id in q.jobs && q.jobs[id].state == STAGING && q.jobs[id].manifest.origin == d
    ensures id in c.outbox && c.outbox[id] == q.jobs[id].manifest
  {
  }

  lemma CommitOwn(q: Queue, d: Device, id: JobId, c: Client)
    requires Inv(q) && DeviceOk(q, d, c) && id in q.jobs && q.jobs[id].state == STAGING && q.jobs[id].manifest.origin == d
    requires HeadOf(q, q.jobs[id].manifest.key) == q.jobs[id].manifest.parent
    ensures DeviceOk(Published(q, id), d, c)
  {
    OwnStaged(q, d, id, c);
    PublishedEvolves(q, id);
    hide Numbered, WellFormed, Parented, OnlyChildren, ReceiptsBacked, BoundReceive, FilesTracked, StagedTracked, WithinQuota;
    hide Headed, HeadsCommitted, ReceiptsExact, RowsInOrder, OutboxInOrder, BlocksKept, StagedFromOutbox, Published, Overtaken, Evolves;
    CommittableOnHead(q, d, c, c.outbox[id]);
    CommitOwnReceipts(q, d, id, c);
    RowsFrame(q, Published(q, id), d, c);
    CommitOwnOutbox(q, d, id, c);
    CommitBlocks(q, d, id, c);
    CommitStaged(q, d, id, c);
  }

  /** Versions that only change their state leave what every device satisfies alone, but for its blocks. */
  lemma CoreEvolves(q: Queue, q': Queue, d: Device, c: Client)
    requires Evolves(q, q') && q'.jobs.Keys == q.jobs.Keys && DeviceCore(q, d, c) && BlocksKept(q', d, c)
    ensures DeviceCore(q', d, c)
  {
    hide Truthful, Holding, BlocksKept;
  }

  lemma CommitOwnInv(q: Queue, d: Device, id: JobId, c: Client)
    requires Inv(q) && DeviceInv(q, d, c) && id in q.jobs && q.jobs[id].state == STAGING && q.jobs[id].manifest.origin == d
    requires HeadOf(q, q.jobs[id].manifest.key) == q.jobs[id].manifest.parent
    ensures DeviceInv(Published(q, id), d, c)
  {
    hide DeviceOk, Stocked, Tracked, HeadsCommitted, RowsKnown, OutboxOwn, BlocksKept, Parented, Headed, OnlyChildren, ReceiptsBacked, WellFormed;
    hide Numbered, BoundReceive, FilesTracked, StagedTracked, WithinQuota, Evolves;
    if c.chose {
      CommitBlocks(q, d, id, c);
      PublishedEvolves(q, id);
      CoreEvolves(q, Published(q, id), d, c);
    } else {
      CommitOwn(q, d, id, c);
    }
  }

  lemma CommitHonest(q: Queue, id: JobId, devices: set<Device>)
    requires FilesTracked(q.objects, q.chunks, q.uploads) && id in q.jobs && Uploaded(q, id)
    requires Honest(q) && KnownDevices(q, devices)
    ensures Honest(Published(q, id)) && KnownDevices(Published(q, id), devices)
  {
    CommitObjects(q, id);
    hide Stocked, Tracked, Truthful, Uploaded, FilesTracked;
    SameHonest(q, Published(q, id));
  }

  // ---------------------------------------------------------------- receipts

  lemma ReceiptUnmoved(q: Queue, d: Device, id: JobId, e: Device, c: Client)
    requires id in q.jobs && q.jobs[id].Committed() && e != d
    ensures Evolves(q, Receipted(q, d, id)) && Unmoved(q, Receipted(q, d, id), e, c)
  {
    StockedKeys(q.inventory, d, q.jobs[id].manifest.chunks);
    hide Stocked, Sizes;
  }

  lemma ReceiptedEvolves(q: Queue, d: Device, id: JobId)
    requires id in q.jobs && q.jobs[id].Committed()
    ensures var q' := Receipted(q, d, id);
      && Evolves(q, q') && q'.jobs.Keys == q.jobs.Keys
      && forall a | a in q.jobs ::
           && q'.jobs[a].receipts == (if a == id then q.jobs[a].receipts + {d} else q.jobs[a].receipts)
           && q'.jobs[a].Committed() == q.jobs[a].Committed()
  {
    hide Stocked;
  }

  lemma ReceiptOwnReceipts(q: Queue, d: Device, id: JobId, c: Client)
    requires Parented(q.jobs) && HeadsCommitted(q, c) && ReceiptsExact(q, d, c)
    requires id in q.jobs && q.jobs[id].Committed() && AppliedRow(c, id)
    ensures HeadsCommitted(Receipted(q, d, id), c) && ReceiptsExact(Receipted(q, d, id), d, c)
  {
    ReceiptedEvolves(q, d, id);
    hide Receipted;
    var q' := Receipted(q, d, id);
    forall a | a in q.jobs
      ensures Upto(q', c, q.jobs[a].manifest.key) == Upto(q, c, q.jobs[a].manifest.key)
    {
      UptoStable(q, q', c, q.jobs[a].manifest.key);
    }
  }

  lemma ReceiptOwnOutbox(q: Queue, d: Device, id: JobId, c: Client)
    requires Parented(q.jobs) && HeadsCommitted(q, c) && OutboxInOrder(q, d, c) && id in q.jobs && q.jobs[id].Committed()
    ensures OutboxInOrder(Receipted(q, d, id), d, c)
  {
    hide Stocked, Truthful, Holding;
    var q' := Receipted(q, d, id);
    forall a | a in c.outbox
      ensures Upto(q', c, c.outbox[a].key) == Upto(q, c, c.outbox[a].key)
    {
      UptoStable(q, q', c, c.outbox[a].key);
    }
  }

  lemma ReceiptBlocks(q: Queue, d: Device, id: JobId, c: Client)
    requires BlocksKept(q, d, c) && WellFormed(q.jobs)
    requires id in q.jobs && q.jobs[id].Committed() && Sizes(q.jobs[id].manifest.chunks).Keys <= c.cache
    ensures BlocksKept(Receipted(q, d, id), d, c)
  {
    StockedKeys(q.inventory, d, q.jobs[id].manifest.chunks);
    hide Stocked, Holding, Sizes, ValidManifest;
  }

  lemma ReceiptStaged(q: Queue, d: Device, id: JobId, c: Client)
    requires StagedFromOutbox(q, d, c) && id in q.jobs && q.jobs[id].Committed()
    ensures StagedFromOutbox(Receipted(q, d, id), d, c)
  {
    hide Stocked;
  }

  lemma AppliedHeld(q: Queue, d: Device, id: JobId, c: Client)
    requires Honest(q) && RowsKnown(q, c) && BlocksKept(q, d, c) && AppliedRow(c, id)
    ensures id in q.jobs && q.jobs[id].Committed() && q.jobs[id].manifest == c.inbox[id].manifest
    ensures Sizes(q.jobs[id].manifest.chunks).Keys <= c.cache
  {
    TruthfulSizes(q.jobs[id].manifest);
    hide Truthful, Sizes;
  }

  lemma ReceiptOwn(q: Queue, d: Device, id: JobId, c: Client)
    requires Inv(q) && Honest(q) && DeviceOk(q, d, c) && AppliedRow(c, id)
    ensures id in q.jobs && q.jobs[id].Committed() && DeviceOk(Receipted(q, d, id), d, c)
  {
    assert RowsKnown(q, c) by { hide Upto; }
    AppliedHeld(q, d, id, c);
    ReceiptedEvolves(q, d, id);
    hide Numbered, WellFormed, Parented, Headed, OnlyChildren, ReceiptsBacked, BoundReceive, FilesTracked, StagedTracked, WithinQuota;
    hide HeadsCommitted, ReceiptsExact, RowsInOrder, OutboxInOrder, BlocksKept, StagedFromOutbox, Receipted, Honest, Evolves;
    ReceiptOwnReceipts(q, d, id, c);
    RowsFrame(q, Receipted(q, d, id), d, c);
    ReceiptOwnOutbox(q, d, id, c);
    ReceiptBlocks(q, d, id, c);
    ReceiptStaged(q, d, id, c);
  }

  lemma ReceiptOwnInv(q: Queue, d: Device, id: JobId, c: Client)
    requires Inv(q) && Honest(q) && DeviceInv(q, d, c) && AppliedRow(c, id)
    ensures id in q.jobs && q.jobs[id].Committed() && DeviceInv(Receipted(q, d, id), d, c)
  {
    hide DeviceOk, Receipted, Honest, HeadsCommitted, RowsKnown, OutboxOwn, BlocksKept, WellFormed, Sizes;
    hide Numbered, Parented, Headed, OnlyChildren, ReceiptsBacked, BoundReceive, FilesTracked, StagedTracked, WithinQuota, Evolves;
    if c.chose {
      AppliedHeld(q, d, id, c);
      ReceiptedEvolves(q, d, id);
      ReceiptBlocks(q, d, id, c);
      CoreEvolves(q, Receipted(q, d, id), d, c);
    } else {
      ReceiptOwn(q, d, id, c);
    }
  }

  lemma ReceiptHonest(q: Queue, d: Device, id: JobId, devices: set<Device>)
    requires Honest(q) && KnownDevices(q, devices) && id in q.jobs
    ensures Honest(Receipted(q, d, id)) && KnownDevices(Receipted(q, d, id), devices)
  {
    hide Stocked, Truthful;
    SameHonest(q, Receipted(q, d, id));
  }

  // ---------------------------------------------------------------- what a device does on its own

  lemma SameFilesUpto(q: Queue, c: Client, c': Client)
    requires c'.files == c.files
    ensures forall k :: Upto(q, c', k) == Upto(q, c, k)
    ensures forall m :: Overtaken(q, c', m) == Overtaken(q, c, m)
  {
  }

  /** A change that leaves recorded heads, outbox and applied rows alone. */
  ghost predicate SameVersions(c: Client, c': Client) {
    && c'.role == c.role && c'.files == c.files && c'.outbox == c.outbox && c.cache <= c'.cache
    && forall id :: AppliedRow(c', id) == AppliedRow(c, id)
  }

  lemma SameVersionsOutbox(q: Queue, d: Device, c: Client, c': Client)
    requires SameVersions(c, c') && OutboxInOrder(q, d, c)
    ensures OutboxInOrder(q, d, c')
  {
    SameFilesUpto(q, c, c');
    hide Upto, Overtaken, Truthful;
  }

  lemma SameVersionsReceipts(q: Queue, d: Device, c: Client, c': Client)
    requires c'.files == c.files && c'.outbox == c.outbox && ReceiptsExact(q, d, c)
    requires forall id | id in q.jobs && d !in q.jobs[id].receipts :: AppliedRow(c', id) == AppliedRow(c, id)
    requires forall id | id in q.jobs && d in q.jobs[id].receipts :: AppliedRow(c', id) ==> AppliedRow(c, id)
    ensures ReceiptsExact(q, d, c')
  {
    SameFilesUpto(q, c, c');
    hide Upto;
  }

  lemma SameVersionsOk(q: Queue, d: Device, c: Client, c': Client)
    requires DeviceOk(q, d, c) && SameVersions(c, c') && RowsInOrder(q, d, c') && BlocksKept(q, d, c')
    ensures DeviceOk(q, d, c')
  {
    assert HeadsCommitted(q, c') && StagedFromOutbox(q, d, c');
    hide RowsInOrder, BlocksKept, OutboxInOrder, ReceiptsExact, HeadsCommitted, StagedFromOutbox;
    SameVersionsOutbox(q, d, c, c');
    SameVersionsReceipts(q, d, c, c');
  }

  lemma RowsSame(q: Queue, d: Device, c: Client, c': Client)
    requires RowsInOrder(q, d, c) && c'.files == c.files && c'.inbox == c.inbox
    ensures RowsInOrder(q, d, c')
  {
    SameFilesUpto(q, c, c');
    hide Upto, IsCommitted;
  }

  /** Working files, cached blocks and partial downloads play no part in the versions a device has. */
  lemma CacheGrows(q: Queue, d: Device, c: Client, c': Client)
    requires DeviceOk(q, d, c) && c.cache <= c'.cache
    requires c' == c.(cache := c'.cache, partial := c'.partial, tree := c'.tree, recovery := c'.recovery)
    requires forall h | h in c'.partial :: (h in c.partial && c'.partial[h] == c.partial[h]) || c'.partial[h] <= h.preimage
    ensures DeviceOk(q, d, c')
  {
    assert BlocksKept(q, d, c');
    hide RowsInOrder, BlocksKept, OutboxInOrder, ReceiptsExact, HeadsCommitted, StagedFromOutbox;
    RowsSame(q, d, c, c');
    SameVersionsOk(q, d, c, c');
  }

  lemma SnapshotOutbox(q: Queue, d: Device, c: Client, m: Manifest)
    requires OutboxInOrder(q, d, c) && m.origin == d && Truthful(m) && Holding(c, m) && m.parent == Recorded(c, m.key)
    requires NoOutboxOf(c, m.key.dataset) && m.id !in q.jobs
    ensures OutboxInOrder(q, d, Queued(c, m))
  {
    hide Truthful, Upto, Overtaken;
    SameFilesUpto(q, c, Queued(c, m));
  }

  lemma SnapshotRest(q: Queue, d: Device, c: Client, m: Manifest)
    requires HeadsCommitted(q, c) && ReceiptsExact(q, d, c) && BlocksKept(q, d, c)
    requires StagedFromOutbox(q, d, c) && m.id !in q.jobs
    ensures var c' := Queued(c, m);
      HeadsCommitted(q, c') && ReceiptsExact(q, d, c') && BlocksKept(q, d, c') && StagedFromOutbox(q, d, c')
  {
    hide Upto;
    SameFilesUpto(q, c, Queued(c, m));
  }

  lemma SnapshotOk(q: Queue, d: Device, c: Client, m: Manifest)
    requires DeviceOk(q, d, c) && m.origin == d && Truthful(m) && Holding(c, m) && m.parent == Recorded(c, m.key)
    requires NoOutboxOf(c, m.key.dataset) && m.id !in q.jobs
    ensures DeviceOk(q, d, Queued(c, m))
  {
    SnapshotOutbox(q, d, c, m);
    SnapshotRest(q, d, c, m);
    RowsSame(q, d, c, Queued(c, m));
    hide HeadsCommitted, ReceiptsExact, RowsInOrder, OutboxInOrder, BlocksKept, StagedFromOutbox;
  }

  /** Recording a committed child of the recorded head appends it to what the device has of the file. */
  lemma UptoExtends(q: Queue, c: Client, m: Manifest, c': Client)
    requires Parented(q.jobs) && HeadsCommitted(q, c) && IsCommitted(q, m) && m.parent == Recorded(c, m.key)
    requires c'.files == c.files[m.key := m]
    ensures Upto(q, c', m.key) == Upto(q, c, m.key) + [m.id] && m.id !in Upto(q, c, m.key)
    ensures forall k | k != m.key :: Upto(q, c', k) == Upto(q, c, k)
    ensures HeadsCommitted(q, c')
  {
    if m.id in Upto(q, c, m.key) {
      UptoCommitted(q, c, m.key, m.id);
    }
  }

  lemma LastOfUpto(q: Queue, c: Client, k: Key)
    requires k in c.files && c.files[k].id in q.jobs
    ensures c.files[k].id in Upto(q, c, k)
  {
  }

  lemma AnnounceReceipts(q: Queue, d: Device, c: Client, m: Manifest)
    requires Parented(q.jobs) && HeadsCommitted(q, c) && ReceiptsExact(q, d, c)
    requires IsCommitted(q, m) && m.parent == Recorded(c, m.key) && m.id in c.outbox
    ensures ReceiptsExact(q, d, Announced(c, m))
  {
    UptoExtends(q, c, m, Announced(c, m));
    hide Upto;
  }

  /** A committed version of the same file with the same parent is the same version. */
  lemma SoleChild(q: Queue, id: JobId, m: Manifest)
    requires OnlyChildren(q.jobs) && IsCommitted(q, m) && id in q.jobs && q.jobs[id].Committed()
    requires q.jobs[id].manifest.key == m.key && q.jobs[id].manifest.parent == m.parent
    ensures id == m.id
  {
  }

  lemma RowsApplied(q: Queue, d: Device, c: Client, m: Manifest, id: JobId)
    requires OnlyChildren(q.jobs) && RowsInOrder(q, d, c) && IsCommitted(q, m) && m.parent == Recorded(c, m.key)
    requires m.id !in c.inbox && id in c.inbox && c.inbox[id].manifest.key == m.key
    ensures c.inbox[id].phase.Applied?
  {
    hide Upto, OnlyChildren;
    if !c.inbox[id].phase.Applied? {
      SoleChild(q, id, m);
      assert false;
    }
  }

  lemma AnnounceRows(q: Queue, d: Device, c: Client, m: Manifest)
    requires Parented(q.jobs) && OnlyChildren(q.jobs) && HeadsCommitted(q, c) && RowsInOrder(q, d, c)
    requires IsCommitted(q, m) && m.parent == Recorded(c, m.key) && m.id !in c.inbox
    ensures RowsInOrder(q, d, Announced(c, m))
  {
    UptoExtends(q, c, m, Announced(c, m));
    forall id | id in c.inbox && c.inbox[id].manifest.key == m.key
      ensures c.inbox[id].phase.Applied?
    {
      RowsApplied(q, d, c, m, id);
    }
    assert OneRowEach(Announced(c, m));
    hide Upto, OnlyChildren, Parented, HeadsCommitted, OneRowEach, IsCommitted;
  }

  lemma OtherOutbox(c: Client, id: JobId, m: Manifest)
    requires OneOutboxEach(c) && m.id in c.outbox && c.outbox[m.id] == m && id in c.outbox && id != m.id
    ensures c.outbox[id].key.dataset != m.key.dataset
  {
  }

  lemma AnnounceOutbox(q: Queue, d: Device, c: Client, m: Manifest)
    requires Parented(q.jobs) && HeadsCommitted(q, c) && OutboxInOrder(q, d, c)
    requires IsCommitted(q, m) && m.parent == Recorded(c, m.key) && m.id in c.outbox && c.outbox[m.id] == m
    ensures OutboxInOrder(q, d, Announced(c, m))
  {
    hide Upto, Truthful, HeadsCommitted, Parented;
    var c' := Announced(c, m);
    UptoExtends(q, c, m, c');
    assert OneOutboxEach(c');
    hide OneOutboxEach;
    forall id | id in c'.outbox
      ensures c'.outbox[id].parent == Recorded(c', c'.outbox[id].key) || Overtaken(q, c', c'.outbox[id])
    {
      OtherOutbox(c, id, m);
    }
    hide Overtaken, IsCommitted;
  }

  lemma AnnounceFacts(q: Queue, d: Device, c: Client, m: Manifest)
    requires DeviceOk(q, d, c) && IsCommitted(q, m) && m.id in c.outbox && c.outbox[m.id] == m
    ensures m.parent == Recorded(c, m.key) && m.id !in c.inbox
    ensures BlocksKept(q, d, Announced(c, m)) && StagedFromOutbox(q, d, Announced(c, m))
  {
    hide Truthful, Upto, ReceiptsExact, HeadsCommitted, OneRowEach, OneOutboxEach;
  }

  lemma AnnounceOk(q: Queue, d: Device, c: Client, m: Manifest)
    requires Inv(q) && DeviceOk(q, d, c) && IsCommitted(q, m) && m.id in c.outbox && c.outbox[m.id] == m
    ensures DeviceOk(q, d, Announced(c, m))
  {
    AnnounceFacts(q, d, c, m);
    hide Numbered, WellFormed, Parented, Headed, OnlyChildren, ReceiptsBacked, BoundReceive, FilesTracked, StagedTracked, WithinQuota;
    hide HeadsCommitted, ReceiptsExact, RowsInOrder, OutboxInOrder, BlocksKept, StagedFromOutbox, IsCommitted;
    AnnounceReceipts(q, d, c, m);
    AnnounceRows(q, d, c, m);
    AnnounceOutbox(q, d, c, m);
    UptoExtends(q, c, m, Announced(c, m));
  }

  lemma AcceptReceipts(q: Queue, d: Device, c: Client, m: Manifest)
    requires Parented(q.jobs) && HeadsCommitted(q, c) && ReceiptsExact(q, d, c)
    requires IsCommitted(q, m) && m.parent == Recorded(c, m.key) && m.id in c.inbox
    ensures ReceiptsExact(q, d, Accepted(c, m))
  {
    UptoExtends(q, c, m, Accepted(c, m));
    hide Upto;
  }

  lemma AcceptRows(q: Queue, d: Device, c: Client, m: Manifest)
    requires Parented(q.jobs) && HeadsCommitted(q, c) && RowsInOrder(q, d, c)
    requires IsCommitted(q, m) && m.parent == Recorded(c, m.key) && m.id in c.inbox && c.inbox[m.id].manifest == m
    ensures RowsInOrder(q, d, Accepted(c, m))
  {
    hide Upto, Parented, HeadsCommitted, RowsInOrder, IsCommitted;
    UptoExtends(q, c, m, Accepted(c, m));
    AcceptedRow(q, d, c, Accepted(c, m), m);
  }

  lemma AcceptedRow(q: Queue, d: Device, c: Client, c': Client, m: Manifest)
    requires RowsInOrder(q, d, c) && IsCommitted(q, m) && m.id in c.inbox && c.inbox[m.id].manifest == m
    requires c'.files == c.files[m.key := m] && c'.inbox == c.inbox[m.id := c.inbox[m.id].(phase := Applied)]
    requires m.id in Upto(q, c', m.key) && forall k | k != m.key :: Upto(q, c', k) == Upto(q, c, k)
    ensures RowsInOrder(q, d, c')
  {
    hide Upto, IsCommitted;
    forall id | id in c.inbox && id != m.id
      ensures c.inbox[id].manifest.key != m.key
    {
    }
  }

  /** A version waiting in the outbox on the old head is overtaken by a received child of that head. */
  lemma NewlyOvertaken(q: Queue, d: Device, c: Client, m: Manifest, o: Manifest)
    requires Parented(q.jobs) && OnlyChildren(q.jobs) && HeadsCommitted(q, c)
    requires IsCommitted(q, m) && m.parent == Recorded(c, m.key) && m.id in c.inbox
    requires o.key == m.key && o.id != m.id && (o.id in q.jobs ==> q.jobs[o.id].manifest == o)
    requires o.parent == Recorded(c, m.key) || Overtaken(q, c, o)
    ensures Overtaken(q, Accepted(c, m), o)
  {
    UptoExtends(q, c, m, Accepted(c, m));
    if m.key in c.files {
      LastOfUpto(q, c, m.key);
    }
    hide Upto, OnlyChildren, Parented;
    if o.parent == Recorded(c, m.key) && o.id in q.jobs && q.jobs[o.id].Committed() {
      SoleChild(q, o.id, m);
      assert false;
    }
  }

  lemma AcceptOutbox(q: Queue, d: Device, c: Client, m: Manifest)
    requires Parented(q.jobs) && OnlyChildren(q.jobs) && HeadsCommitted(q, c) && OutboxInOrder(q, d, c)
    requires IsCommitted(q, m) && m.parent == Recorded(c, m.key) && m.id in c.inbox && m.id !in c.outbox
    ensures OutboxInOrder(q, d, Accepted(c, m))
  {
    hide Upto, Truthful, Parented, OnlyChildren, HeadsCommitted;
    var c' := Accepted(c, m);
    UptoExtends(q, c, m, c');
    forall id | id in c.outbox
      ensures c.outbox[id].parent == Recorded(c', c.outbox[id].key) || Overtaken(q, c', c.outbox[id])
    {
      if c.outbox[id].key == m.key {
        NewlyOvertaken(q, d, c, m, c.outbox[id]);
      }
    }
    hide Overtaken;
  }

  lemma AcceptFacts(q: Queue, d: Device, c: Client, m: Manifest)
    requires DeviceOk(q, d, c) && m.id in c.inbox && c.inbox[m.id].manifest == m && c.inbox[m.id].phase.Ready?
    ensures IsCommitted(q, m) && m.id !in c.outbox
    ensures BlocksKept(q, d, Accepted(c, m)) && StagedFromOutbox(q, d, Accepted(c, m))
  {
    hide Truthful, Upto, ReceiptsExact, HeadsCommitted, Overtaken, OneRowEach, OneOutboxEach;
  }

  lemma AcceptOk(q: Queue, d: Device, c: Client, m: Manifest)
    requires Inv(q) && DeviceOk(q, d, c) && m.id in c.inbox && c.inbox[m.id].manifest == m && c.inbox[m.id].phase.Ready?
    requires m.parent == Recorded(c, m.key)
    ensures DeviceOk(q, d, Accepted(c, m))
  {
    AcceptFacts(q, d, c, m);
    hide Numbered, WellFormed, Parented, Headed, OnlyChildren, ReceiptsBacked, BoundReceive, FilesTracked, StagedTracked, WithinQuota;
    hide HeadsCommitted, ReceiptsExact, RowsInOrder, OutboxInOrder, BlocksKept, StagedFromOutbox, IsCommitted;
    AcceptReceipts(q, d, c, m);
    AcceptRows(q, d, c, m);
    AcceptOutbox(q, d, c, m);
    UptoExtends(q, c, m, Accepted(c, m));
  }

  lemma JournalSame(c: Client, m: Manifest)
    ensures SameVersions(c, Journaled(c, m))
  {
  }

  lemma MarkSame(c: Client, id: JobId)
    requires id in c.inbox && !c.inbox[id].phase.Applied?
    ensures SameVersions(c, Marked(c, id))
  {
  }

  lemma JournalOk(q: Queue, d: Device, c: Client, m: Manifest)
    requires ReceiptsBacked(q.jobs, q.inventory) && DeviceOk(q, d, c) && IsCommitted(q, m) && d !in q.jobs[m.id].receipts
    requires m.parent == Recorded(c, m.key) && NoRowOf(c, m.key.dataset)
    ensures DeviceOk(q, d, Journaled(c, m))
  {
    assert m.origin != d;
    hide HeadsCommitted, ReceiptsExact, OutboxInOrder, StagedFromOutbox, ReceiptsBacked, SameVersions;
    JournalRows(q, d, c, m);
    JournalBlocks(q, d, c, m);
    JournalSame(c, m);
    hide NoRowOf, IsCommitted, RowsInOrder, BlocksKept, Journaled;
    SameVersionsOk(q, d, c, Journaled(c, m));
  }

  lemma JournalBlocks(q: Queue, d: Device, c: Client, m: Manifest)
    requires BlocksKept(q, d, c)
    ensures BlocksKept(q, d, Journaled(c, m))
  {
  }

  lemma JournalRows(q: Queue, d: Device, c: Client, m: Manifest)
    requires RowsInOrder(q, d, c) && IsCommitted(q, m) && m.origin != d
    requires m.parent == Recorded(c, m.key) && NoRowOf(c, m.key.dataset)
    ensures RowsInOrder(q, d, Journaled(c, m))
  {
    hide Upto, IsCommitted;
    SameFilesUpto(q, c, Journaled(c, m));
    assert OneRowEach(Journaled(c, m));
    hide OneRowEach;
  }

  lemma MarkRows(q: Queue, d: Device, c: Client, id: JobId)
    requires RowsInOrder(q, d, c) && id in c.inbox && !c.inbox[id].phase.Applied?
    ensures RowsInOrder(q, d, Marked(c, id))
  {
    SameFilesUpto(q, c, Marked(c, id));
    assert OneRowEach(Marked(c, id));
    hide Upto, IsCommitted, OneRowEach;
  }

  lemma MarkBlocks(q: Queue, d: Device, c: Client, id: JobId)
    requires BlocksKept(q, d, c) && id in c.inbox && Holding(c, c.inbox[id].manifest)
    ensures BlocksKept(q, d, Marked(c, id))
  {
  }

  lemma MarkOk(q: Queue, d: Device, c: Client, id: JobId)
    requires DeviceOk(q, d, c) && id in c.inbox && !c.inbox[id].phase.Applied? && Holding(c, c.inbox[id].manifest)
    ensures DeviceOk(q, d, Marked(c, id))
  {
    hide HeadsCommitted, ReceiptsExact, RowsInOrder, OutboxInOrder, BlocksKept, StagedFromOutbox, SameVersions;
    MarkBlocks(q, d, c, id);
    MarkRows(q, d, c, id);
    MarkSame(c, id);
    hide Marked;
    SameVersionsOk(q, d, c, Marked(c, id));
  }

  lemma DropRows(q: Queue, d: Device, c: Client, id: JobId)
    requires RowsInOrder(q, d, c) && BlocksKept(q, d, c)
    ensures RowsInOrder(q, d, Dropped(c, id)) && BlocksKept(q, d, Dropped(c, id))
  {
    hide Upto, IsCommitted, RowsInOrder, BlocksKept;
    SameFilesUpto(q, c, Dropped(c, id));
    FewerRows(q, d, c, Dropped(c, id));
    FewerBlocks(q, d, c, Dropped(c, id));
  }

  lemma FewerRows(q: Queue, d: Device, c: Client, c': Client)
    requires RowsInOrder(q, d, c) && c'.inbox.Keys <= c.inbox.Keys && (forall id | id in c'.inbox :: c'.inbox[id] == c.inbox[id])
    requires c'.files == c.files && forall k :: Upto(q, c', k) == Upto(q, c, k)
    ensures RowsInOrder(q, d, c')
  {
    hide Upto, IsCommitted;
  }

  lemma FewerBlocks(q: Queue, d: Device, c: Client, c': Client)
    requires BlocksKept(q, d, c) && c'.inbox.Keys <= c.inbox.Keys && (forall id | id in c'.inbox :: c'.inbox[id] == c.inbox[id])
    requires c'.cache == c.cache && c'.partial == c.partial
    ensures BlocksKept(q, d, c')
  {
  }

  lemma DropOutbox(q: Queue, d: Device, c: Client, id: JobId)
    requires OutboxInOrder(q, d, c)
    ensures OutboxInOrder(q, d, Dropped(c, id))
  {
    SameFilesUpto(q, c, Dropped(c, id));
    hide Upto, Overtaken, Truthful;
  }

  lemma DropReceipts(q: Queue, d: Device, c: Client, id: JobId)
    requires ReceiptsExact(q, d, c) && AppliedRow(c, id) && id in q.jobs && d in q.jobs[id].receipts
    ensures ReceiptsExact(q, d, Dropped(c, id))
  {
    hide ReceiptsExact;
    SameVersionsReceipts(q, d, c, Dropped(c, id));
  }

  lemma DropOk(q: Queue, d: Device, c: Client, id: JobId)
    requires DeviceOk(q, d, c) && AppliedRow(c, id) && id in q.jobs && d in q.jobs[id].receipts
    ensures DeviceOk(q, d, Dropped(c, id))
  {
    assert HeadsCommitted(q, Dropped(c, id)) && StagedFromOutbox(q, d, Dropped(c, id))
    by { hide ReceiptsExact, RowsInOrder, OutboxInOrder, BlocksKept; }
    hide HeadsCommitted, ReceiptsExact, RowsInOrder, OutboxInOrder, BlocksKept, StagedFromOutbox;
    DropRows(q, d, c, id);
    DropOutbox(q, d, c, id);
    DropReceipts(q, d, c, id);
  }

  // ---------------------------------------------------------------- every step

  /** One device and the broker moved; for the others nothing that concerns them changed. */
  lemma Assembled(s: System, d: Device, q': Queue, c': Client)
    requires SystemOk(s) && d in s.clients
    requires Inv(q') && Honest(q') && KnownDevices(q', s.clients.Keys) && DeviceInv(q', d, c')
    requires forall e | e in s.clients && e != d :: DeviceInv(q', e, s.clients[e])
    requires OutboxesApart(s.clients[d := c'])
    ensures SystemOk(System(q', s.clients[d := c']))
  {
    hide Inv, Honest, DeviceInv, OutboxesApart;
    assert s.clients[d := c'].Keys == s.clients.Keys;
  }

  lemma ApartKept(clients: map<Device, Client>, d: Device, c': Client)
    requires OutboxesApart(clients) && d in clients && c'.outbox.Keys <= clients[d].outbox.Keys
    ensures OutboxesApart(clients[d := c'])
  {
  }

  lemma OthersFramed(s: System, d: Device, q': Queue)
    requires SystemOk(s)
    requires forall e | e in s.clients && e != d :: Evolves(s.q, q') && Unmoved(s.q, q', e, s.clients[e])
    ensures forall e | e in s.clients && e != d :: DeviceInv(q', e, s.clients[e])
  {
    hide Inv, Honest, DeviceInv, Evolves, Unmoved, KnownDevices, OutboxesApart;
    forall e | e in s.clients && e != d
      ensures DeviceInv(q', e, s.clients[e])
    {
      InvFrame(s.q, q', e, s.clients[e]);
    }
  }

  lemma QuietOk(s: System, d: Device, q': Queue)
    requires SystemOk(s) && d in s.clients && Quiet(s.q, q')
    requires Inv(q') && Honest(q') && KnownDevices(q', s.clients.Keys)
    ensures SystemOk(System(q', s.clients[d := s.clients[d]]))
  {
    hide Inv, Honest, DeviceInv, KnownDevices, Quiet, Evolves, Unmoved;
    forall e | e in s.clients
      ensures Evolves(s.q, q') && Unmoved(s.q, q', e, s.clients[e])
    {
      QuietUnmoved(s.q, q', e, s.clients[e]);
    }
    OthersFramed(s, d, q');
    InvFrame(s.q, q', d, s.clients[d]);
    ApartKept(s.clients, d, s.clients[d]);
    Assembled(s, d, q', s.clients[d]);
  }

  lemma IdleOk(s: System, d: Device)
    requires SystemOk(s) && d in s.clients
    ensures SystemOk(System(s.q, s.clients[d := s.clients[d]]))
  {
    hide Inv, Honest, DeviceInv, KnownDevices, OutboxesApart;
    assert s.clients[d := s.clients[d]] == s.clients;
  }

  lemma PreparesOthers(s: System, d: Device, m: Manifest)
    requires OutboxesApart(s.clients) && d in s.clients && m.id in s.clients[d].outbox && m.id !in s.q.jobs && m.origin == d
    ensures var q' := Staged(s.q, d, m);
      forall e | e in s.clients && e != d :: Evolves(s.q, q') && Unmoved(s.q, q', e, s.clients[e])
  {
    hide Evolves, Unmoved, Staged;
    forall e | e in s.clients && e != d
      ensures Evolves(s.q, Staged(s.q, d, m)) && Unmoved(s.q, Staged(s.q, d, m), e, s.clients[e])
    {
      PrepareUnmoved(s.q, d, m, e, s.clients[e]);
    }
  }

  lemma PreparesOk(s: System, d: Device, m: Manifest)
    requires SystemOk(s) && d in s.clients && m.id in s.clients[d].outbox && s.clients[d].outbox[m.id] == m
    requires m.id !in s.q.jobs && m.origin == d && Truthful(m) && Prepare(s.q, d, m).Done?
    ensures SystemOk(System(Staged(s.q, d, m), s.clients[d := s.clients[d]]))
  {
    var q' := Staged(s.q, d, m);
    hide Inv, Honest, DeviceInv, KnownDevices, Evolves, Unmoved, Staged, Truthful;
    PrepareInv(s.q, d, m);
    assert q' == Prepare(s.q, d, m).after;
    hide Prepare;
    PreparesOthers(s, d, m);
    OthersFramed(s, d, q');
    StagedHonest(s.q, d, m);
    StagedKnown(s.q, d, m, s.clients.Keys);
    PrepareOwnInv(s.q, d, m, s.clients[d]);
    ApartKept(s.clients, d, s.clients[d]);
    Assembled(s, d, q', s.clients[d]);
  }

  lemma CommitsOk(s: System, d: Device, id: JobId)
    requires SystemOk(s) && d in s.clients && id in s.q.jobs && s.q.jobs[id].state == STAGING
    requires s.q.jobs[id].manifest.origin == d && Commit(s.q, d, id).Done?
    ensures SystemOk(System(Published(s.q, id), s.clients[d := s.clients[d]]))
  {
    hide Honest, DeviceInv, KnownDevices, OutboxesApart, Evolves, Unmoved, Published;
    hide Numbered, Parented, Headed, OnlyChildren, BoundReceive, StagedTracked, WithinQuota, WellFormed, FilesTracked, ReceiptsBacked;
    var q' := Published(s.q, id);
    PublishedInv(s.q, id);
    CommitHonest(s.q, id, s.clients.Keys);
    CommitOwnInv(s.q, d, id, s.clients[d]);
    forall e | e in s.clients && e != d
      ensures Evolves(s.q, q') && Unmoved(s.q, q', e, s.clients[e])
    {
      NotMine(s.q, e, s.clients[e], id);
      CommitUnmoved(s.q, id, e, s.clients[e]);
    }
    hide Inv, Commit;
    OthersFramed(s, d, q');
    ApartKept(s.clients, d, s.clients[d]);
    Assembled(s, d, q', s.clients[d]);
  }

  lemma ConfirmsOk(s: System, d: Device, id: JobId)
    requires SystemOk(s) && d in s.clients && AppliedRow(s.clients[d], id)
    ensures id in s.q.jobs && SystemOk(System(Receipted(s.q, d, id), s.clients[d := s.clients[d]]))
  {
    ReceiptOwnInv(s.q, d, id, s.clients[d]);
    hide Inv, Honest, DeviceInv, KnownDevices, OutboxesApart, Receipted, Evolves, Unmoved;
    var q' := Receipted(s.q, d, id);
    ReceiptedInv(s.q, d, id);
    ReceiptHonest(s.q, d, id, s.clients.Keys);
    forall e | e in s.clients && e != d
      ensures Evolves(s.q, q') && Unmoved(s.q, q', e, s.clients[e])
    {
      ReceiptUnmoved(s.q, d, id, e, s.clients[e]);
    }
    OthersFramed(s, d, q');
    ApartKept(s.clients, d, s.clients[d]);
    Assembled(s, d, q', s.clients[d]);
  }

  /** A step on the device alone. */
  lemma LocalOk(s: System, d: Device, c': Client)
    requires SystemOk(s) && d in s.clients && DeviceInv(s.q, d, c') && OutboxesApart(s.clients[d := c'])
    ensures SystemOk(System(s.q, s.clients[d := c']))
  {
    hide Inv, Honest, DeviceInv, KnownDevices, OutboxesApart;
    Assembled(s, d, s.q, c');
  }

  lemma SnapshotApart(s: System, d: Device, m: Manifest)
    requires OutboxesApart(s.clients) && d in s.clients && Unused(s, m.id)
    ensures OutboxesApart(s.clients[d := Queued(s.clients[d], m)])
  {
  }

  lemma PreparesIs(s: System, d: Device, id: JobId)
    requires Enabled(s, Prepares(d, id))
    ensures id in s.clients[d].outbox
    ensures Step(s, Prepares(d, id)) == System(After(s.q, Prepare(s.q, d, s.clients[d].outbox[id])), s.clients[d := s.clients[d]])
  {
    hide Prepare;
  }

  lemma PutsIs(s: System, d: Device, id: JobId, h: Hash, offset: nat, n: nat)
    requires Enabled(s, Puts(d, id, h, offset, n))
    ensures offset <= |h.preimage|
    ensures Step(s, Puts(d, id, h, offset, n))
         == System(After(s.q, Upload(s.q, d, id, h, Some(offset), Slice(h, offset, n))), s.clients[d := s.clients[d]])
    ensures After(s.q, Upload(s.q, d, id, h, Some(offset), Slice(h, offset, n)))
         == Handle(s.q, d, PutRequest(id, h, Some(offset), Slice(h, offset, n)))
  {
    hide Upload, Slice;
  }

  lemma CommitsIs(s: System, d: Device, id: JobId)
    requires Enabled(s, Commits(d, id))
    ensures Step(s, Commits(d, id)) == System(After(s.q, Commit(s.q, d, id)), s.clients[d := s.clients[d]])
  {
    hide Commit;
  }

  lemma RestagesIs(s: System, d: Device, id: JobId)
    requires Enabled(s, Restages(d, id))
    ensures Step(s, Restages(d, id)) == System(After(s.q, RepairPrepare(s.q, d, id)), s.clients[d := s.clients[d]])
    ensures After(s.q, RepairPrepare(s.q, d, id)) == Handle(s.q, d, RepairRequest(id))
  {
    hide RepairPrepare;
  }

  lemma ConfirmsIs(s: System, d: Device, id: JobId)
    requires Enabled(s, Confirms(d, id))
    ensures AppliedRow(s.clients[d], id)
    ensures Step(s, Confirms(d, id))
         == System(After(s.q, Receipt(s.q, d, id, ManifestHash(s.clients[d].inbox[id].manifest))), s.clients[d := s.clients[d]])
  {
    hide Receipt;
  }

  lemma AsksOk(s: System, d: Device, r: Request)
    requires SystemOk(s) && Enabled(s, Asks(d, r))
    ensures SystemOk(Step(s, Asks(d, r)))
  {
    hide Inv, Honest, DeviceInv, Handle, Quiet, KnownDevices, OutboxesApart;
    HandleInv(s.q, d, r);
    AdministrativeQuiet(s.q, d, r);
    AdministrativeKnown(s.q, d, r, s.clients.Keys);
    QuietOk(s, d, Handle(s.q, d, r));
  }

  lemma StepPrepares(s: System, d: Device, id: JobId)
    requires SystemOk(s) && Enabled(s, Prepares(d, id))
    ensures SystemOk(Step(s, Prepares(d, id)))
  {
    PreparesIs(s, d, id);
    var m := s.clients[d].outbox[id];
    assert DeviceInv(s.q, d, s.clients[d]);
    hide SystemOk, Enabled, Step, DeviceInv;
    OutboxFacts(s.q, d, s.clients[d], id);
    PrepareIs(s.q, d, m);
    hide Staged, Truthful, Prepare;
    if Prepare(s.q, d, m).Done? && id !in s.q.jobs {
      PreparesOk(s, d, m);
    } else {
      IdleOk(s, d);
    }
  }

  lemma PrepareIs(q: Queue, d: Device, m: Manifest)
    ensures After(q, Prepare(q, d, m)) == if Prepare(q, d, m).Done? && m.id !in q.jobs then Staged(q, d, m) else q
  {
    hide Staged;
  }

  lemma CommitIs(q: Queue, d: Device, id: JobId)
    ensures Commit(q, d, id).Done? ==> id in q.jobs && q.jobs[id].manifest.origin == d
    ensures After(q, Commit(q, d, id))
         == if Commit(q, d, id).Done? && q.jobs[id].state == STAGING then Published(q, id) else q
  {
    hide Published;
  }

  lemma OutboxFacts(q: Queue, d: Device, c: Client, id: JobId)
    requires DeviceInv(q, d, c) && id in c.outbox
    ensures c.outbox[id].id == id && c.outbox[id].origin == d && Truthful(c.outbox[id])
  {
    CoreOf(q, d, c);
    hide DeviceInv, HeadsCommitted, RowsKnown, BlocksKept, Truthful, Holding;
  }

  lemma EnabledDevice(s: System, e: Event)
    requires Enabled(s, e)
    ensures e.d in s.clients
  {
  }

  lemma PutOk(s: System, d: Device, id: JobId, h: Hash, offset: nat, payload: Bytes)
    requires SystemOk(s) && d in s.clients && offset <= |h.preimage|
    requires offset + |payload| <= |h.preimage| && payload == h.preimage[offset..offset + |payload|]
    ensures SystemOk(System(After(s.q, Upload(s.q, d, id, h, Some(offset), payload)), s.clients[d := s.clients[d]]))
  {
    hide Inv, Honest, DeviceInv, KnownDevices, OutboxesApart, Quiet, Upload, FilesTracked;
    PartsOf(s);
    var q' := After(s.q, Upload(s.q, d, id, h, Some(offset), payload));
    HandleInv(s.q, d, PutRequest(id, h, Some(offset), payload));
    PutQuiet(s.q, d, id, h, offset, payload);
    KnownSame(s.q, q', s.clients.Keys);
    QuietOk(s, d, q');
  }

  lemma StepPuts(s: System, d: Device, id: JobId, h: Hash, offset: nat, n: nat)
    requires SystemOk(s) && Enabled(s, Puts(d, id, h, offset, n))
    ensures SystemOk(Step(s, Puts(d, id, h, offset, n)))
  {
    hide Inv, Honest, FilesTracked, SystemOk, Upload, Enabled, Step, Slice, Handle;
    EnabledDevice(s, Puts(d, id, h, offset, n));
    PutsIs(s, d, id, h, offset, n);
    SliceIs(h, offset, n);
    PutOk(s, d, id, h, offset, Slice(h, offset, n));
  }

  lemma KnownSame(q: Queue, q': Queue, devices: set<Device>)
    requires KnownDevices(q, devices) && q'.jobs == q.jobs && q'.bindings == q.bindings
    ensures KnownDevices(q', devices)
  {
  }

  lemma StepCommits(s: System, d: Device, id: JobId)
    requires SystemOk(s) && Enabled(s, Commits(d, id))
    ensures SystemOk(Step(s, Commits(d, id)))
  {
    CommitsIs(s, d, id);
    assert d in s.clients;
    CommitIs(s.q, d, id);
    hide SystemOk, Published, Commit, Enabled, Step;
    if Commit(s.q, d, id).Done? && s.q.jobs[id].state == STAGING {
      CommitsOk(s, d, id);
    } else {
      IdleOk(s, d);
    }
  }

  lemma StepRestages(s: System, d: Device, id: JobId)
    requires SystemOk(s) && Enabled(s, Restages(d, id))
    ensures SystemOk(Step(s, Restages(d, id)))
  {
    RestagesIs(s, d, id);
    assert d in s.clients && WellFormed(s.q.jobs);
    hide Inv, Honest, DeviceInv, KnownDevices, OutboxesApart, Restaged, Total, Quiet, Enabled, Step, WellFormed, Handle;
    HandleInv(s.q, d, RepairRequest(id));
    if RepairPrepare(s.q, d, id).Done? {
      RestageQuiet(s.q, id);
      RestageHonest(s.q, id, s.clients.Keys);
      hide Missing, Absent;
      QuietOk(s, d, Restaged(s.q, id));
    } else {
      IdleOk(s, d);
    }
  }

  lemma StepConfirms(s: System, d: Device, id: JobId)
    requires SystemOk(s) && Enabled(s, Confirms(d, id))
    ensures SystemOk(Step(s, Confirms(d, id)))
  {
    ConfirmsIs(s, d, id);
    assert d in s.clients && DeviceInv(s.q, d, s.clients[d]);
    hide SystemOk, Enabled, Step, DeviceInv, Receipted;
    RowId(s.q, d, s.clients[d], id);
    ConfirmsOk(s, d, id);
  }

  lemma RowId(q: Queue, d: Device, c: Client, id: JobId)
    requires DeviceInv(q, d, c) && id in c.inbox
    ensures c.inbox[id].manifest.id == id && IsCommitted(q, c.inbox[id].manifest)
  {
    CoreOf(q, d, c);
    hide DeviceInv, HeadsCommitted, OutboxOwn, BlocksKept;
  }

  // ---------------------------------------------------------------- steps that do not reach the broker

  predicate IsLocal(e: Event) {
    IsPlain(e) || e.Snapshots? || e.Announces? || e.Journals? || e.Marks? || e.Accepts? || e.Drops? || e.Chooses? || e.Forgets?
  }

  /** Editing, copying, caching and downloading. */
  predicate IsPlain(e: Event) {
    e.Edits? || e.Caches? || e.SavesPart? || e.Downloads? || e.Settles? || e.Backs?
  }

  lemma LocalIs(s: System, e: Event)
    requires Enabled(s, e) && IsLocal(e)
    ensures Step(s, e) == System(s.q, s.clients[e.d := ClientAfter(s, e)])
  {
  }

  lemma OutboxShrinks(s: System, e: Event)
    requires Enabled(s, e) && IsLocal(e) && !e.Snapshots?
    ensures ClientAfter(s, e).outbox.Keys <= s.clients[e.d].outbox.Keys
  {
  }

  /** A change that leaves heads, rows and outbox alone, or makes the outbox smaller. */
  lemma CoreSmaller(q: Queue, d: Device, c: Client, c': Client)
    requires DeviceCore(q, d, c) && c'.role == c.role && c'.files == c.files && c'.inbox == c.inbox && c.cache <= c'.cache
    requires forall id | id in c'.outbox :: id in c.outbox && c'.outbox[id] == c.outbox[id]
    requires forall h | h in c'.partial :: (h in c.partial && c'.partial[h] == c.partial[h]) || c'.partial[h] <= h.preimage
    ensures DeviceCore(q, d, c')
  {
    hide Truthful;
  }

  lemma PlainFacts(s: System, e: Event)
    requires Enabled(s, e) && IsPlain(e)
    ensures var c := s.clients[e.d]; var c' := ClientAfter(s, e);
      && c.cache <= c'.cache && c' == c.(cache := c'.cache, partial := c'.partial, tree := c'.tree, recovery := c'.recovery)
      && forall h | h in c'.partial :: (h in c.partial && c'.partial[h] == c.partial[h]) || c'.partial[h] <= h.preimage
  {
  }

  lemma PlainInv(s: System, e: Event)
    requires Enabled(s, e) && IsPlain(e) && DeviceInv(s.q, e.d, s.clients[e.d])
    ensures DeviceInv(s.q, e.d, ClientAfter(s, e))
  {
    PlainFacts(s, e);
    hide DeviceOk, DeviceCore, Enabled, ClientAfter;
    var c := s.clients[e.d];
    if c.chose {
      CoreSmaller(s.q, e.d, c, ClientAfter(s, e));
    } else {
      CacheGrows(s.q, e.d, c, ClientAfter(s, e));
    }
  }

  lemma SnapshotCore(q: Queue, d: Device, c: Client, m: Manifest)
    requires DeviceCore(q, d, c) && m.origin == d && Truthful(m) && Holding(c, m) && m.id !in q.jobs
    ensures DeviceCore(q, d, Queued(c, m))
  {
    hide Truthful;
  }

  lemma SnapshotInv(q: Queue, d: Device, c: Client, m: Manifest)
    requires DeviceInv(q, d, c) && m.origin == d && Truthful(m) && Holding(c, m) && m.parent == Recorded(c, m.key)
    requires c.chose || NoOutboxOf(c, m.key.dataset)
    requires m.id !in q.jobs
    ensures DeviceInv(q, d, Queued(c, m))
  {
    hide DeviceOk, DeviceCore, Truthful, Holding, NoOutboxOf;
    if c.chose { SnapshotCore(q, d, c, m); } else { SnapshotOk(q, d, c, m); }
  }

  lemma AnnounceCore(q: Queue, d: Device, c: Client, m: Manifest)
    requires DeviceCore(q, d, c) && IsCommitted(q, m)
    ensures DeviceCore(q, d, Announced(c, m))
  {
    hide Truthful;
  }

  lemma AnnounceInv(q: Queue, d: Device, c: Client, id: JobId)
    requires Inv(q) && DeviceInv(q, d, c) && id in c.outbox && IsCommitted(q, c.outbox[id])
    ensures DeviceInv(q, d, Announced(c, c.outbox[id]))
  {
    OutboxFacts(q, d, c, id);
    hide Inv, DeviceOk, DeviceCore, Truthful, IsCommitted;
    if c.chose { AnnounceCore(q, d, c, c.outbox[id]); } else { AnnounceOk(q, d, c, c.outbox[id]); }
  }

  lemma JournalCore(q: Queue, d: Device, c: Client, m: Manifest)
    requires DeviceCore(q, d, c) && IsCommitted(q, m)
    ensures DeviceCore(q, d, Journaled(c, m))
  {
    hide Truthful;
  }

  lemma JournalInv(q: Queue, d: Device, c: Client, m: Manifest)
    requires Inv(q) && DeviceInv(q, d, c) && IsCommitted(q, m)
    requires c.chose || (d !in q.jobs[m.id].receipts && m.parent == Recorded(c, m.key) && NoRowOf(c, m.key.dataset))
    ensures DeviceInv(q, d, Journaled(c, m))
  {
    assert ReceiptsBacked(q.jobs, q.inventory);
    hide Inv, DeviceOk, DeviceCore, NoRowOf, ReceiptsBacked;
    if c.chose { JournalCore(q, d, c, m); } else { JournalOk(q, d, c, m); }
  }

  lemma MarkCore(q: Queue, d: Device, c: Client, id: JobId)
    requires DeviceCore(q, d, c) && id in c.inbox && Holding(c, c.inbox[id].manifest)
    ensures DeviceCore(q, d, Marked(c, id))
  {
    hide Truthful;
  }

  lemma MarkInv(q: Queue, d: Device, c: Client, id: JobId)
    requires DeviceInv(q, d, c) && id in c.inbox && !c.inbox[id].phase.Applied? && Holding(c, c.inbox[id].manifest)
    ensures DeviceInv(q, d, Marked(c, id))
  {
    hide DeviceOk, DeviceCore, Holding;
    if c.chose { MarkCore(q, d, c, id); } else { MarkOk(q, d, c, id); }
  }

  lemma AcceptCore(q: Queue, d: Device, c: Client, id: JobId)
    requires DeviceCore(q, d, c) && id in c.inbox && c.inbox[id].phase.Ready?
    ensures DeviceCore(q, d, Accepted(c, c.inbox[id].manifest))
  {
    hide Truthful;
  }

  lemma AcceptInv(q: Queue, d: Device, c: Client, id: JobId)
    requires Inv(q) && DeviceInv(q, d, c) && id in c.inbox && c.inbox[id].manifest.id == id && c.inbox[id].phase.Ready?
    requires c.chose || c.inbox[id].manifest.parent == Recorded(c, c.inbox[id].manifest.key)
    ensures DeviceInv(q, d, Accepted(c, c.inbox[id].manifest))
  {
    hide Inv, DeviceOk, DeviceCore;
    if c.chose { AcceptCore(q, d, c, id); } else { AcceptOk(q, d, c, c.inbox[id].manifest); }
  }

  lemma DropCore(q: Queue, d: Device, c: Client, id: JobId)
    requires DeviceCore(q, d, c)
    ensures DeviceCore(q, d, Dropped(c, id))
  {
    hide Truthful;
  }

  lemma DropInv(q: Queue, d: Device, c: Client, id: JobId)
    requires DeviceInv(q, d, c) && AppliedRow(c, id) && id in q.jobs && d in q.jobs[id].receipts
    ensures DeviceInv(q, d, Dropped(c, id))
  {
    hide DeviceOk, DeviceCore;
    if c.chose { DropCore(q, d, c, id); } else { DropOk(q, d, c, id); }
  }

  lemma ChooseInv(q: Queue, d: Device, c: Client, k: Key)
    requires DeviceInv(q, d, c)
    ensures DeviceInv(q, d, Choosing(c))
    ensures c.chose ==> DeviceInv(q, d, WithoutOutbox(c, k))
  {
    CoreOf(q, d, c);
    hide DeviceOk;
    CoreSmaller(q, d, c, Choosing(c));
    if c.chose {
      CoreSmaller(q, d, c, WithoutOutbox(c, k));
    }
    hide DeviceCore;
  }

  lemma SnapshotsInv(s: System, d: Device, m: Manifest)
    requires Enabled(s, Snapshots(d, m)) && Inv(s.q) && DeviceInv(s.q, d, s.clients[d])
    ensures DeviceInv(s.q, d, ClientAfter(s, Snapshots(d, m)))
  {
    hide Inv, DeviceInv, Truthful, Holding, NoRowOf, NoOutboxOf, Recorded, IsCommitted, Announced, Journaled, Marked, Accepted, Dropped, Queued, WithoutOutbox, Choosing;
    SnapshotInv(s.q, d, s.clients[d], m);
  }

  lemma AnnouncesInv(s: System, d: Device, id: JobId)
    requires Enabled(s, Announces(d, id)) && Inv(s.q) && DeviceInv(s.q, d, s.clients[d])
    ensures DeviceInv(s.q, d, ClientAfter(s, Announces(d, id)))
  {
    hide Inv, DeviceInv, Truthful, Holding, NoRowOf, NoOutboxOf, Recorded, IsCommitted, Announced, Journaled, Marked, Accepted, Dropped, Queued, WithoutOutbox, Choosing;
    AnnounceInv(s.q, d, s.clients[d], id);
  }

  lemma JournalsInv(s: System, d: Device, m: Manifest)
    requires Enabled(s, Journals(d, m)) && Inv(s.q) && DeviceInv(s.q, d, s.clients[d])
    ensures DeviceInv(s.q, d, ClientAfter(s, Journals(d, m)))
  {
    hide Inv, DeviceInv, Truthful, Holding, NoRowOf, NoOutboxOf, Recorded, IsCommitted, Announced, Journaled, Marked, Accepted, Dropped, Queued, WithoutOutbox, Choosing;
    JournalInv(s.q, d, s.clients[d], m);
  }

  lemma MarksInv(s: System, d: Device, id: JobId)
    requires Enabled(s, Marks(d, id)) && Inv(s.q) && DeviceInv(s.q, d, s.clients[d])
    ensures DeviceInv(s.q, d, ClientAfter(s, Marks(d, id)))
  {
    hide Inv, DeviceInv, Truthful, Holding, NoRowOf, NoOutboxOf, Recorded, IsCommitted, Announced, Journaled, Marked, Accepted, Dropped, Queued, WithoutOutbox, Choosing;
    MarkInv(s.q, d, s.clients[d], id);
  }

  lemma AcceptsInv(s: System, d: Device, id: JobId)
    requires Enabled(s, Accepts(d, id)) && Inv(s.q) && DeviceInv(s.q, d, s.clients[d])
    ensures DeviceInv(s.q, d, ClientAfter(s, Accepts(d, id)))
  {
    hide Inv, DeviceInv, Truthful, Holding, NoRowOf, NoOutboxOf, Recorded, IsCommitted, Announced, Journaled, Marked, Accepted, Dropped, Queued, WithoutOutbox, Choosing;
    AcceptInv(s.q, d, s.clients[d], id);
  }

  lemma DropsInv(s: System, d: Device, id: JobId)
    requires Enabled(s, Drops(d, id)) && Inv(s.q) && DeviceInv(s.q, d, s.clients[d])
    ensures DeviceInv(s.q, d, ClientAfter(s, Drops(d, id)))
  {
    hide Inv, DeviceInv, Truthful, Holding, NoRowOf, NoOutboxOf, Recorded, IsCommitted, Announced, Journaled, Marked, Accepted, Dropped, Queued, WithoutOutbox, Choosing;
    DropInv(s.q, d, s.clients[d], id);
  }

  lemma ChoosesInv(s: System, e: Event)
    requires Enabled(s, e) && DeviceInv(s.q, e.d, s.clients[e.d]) && (e.Chooses? || e.Forgets?)
    ensures DeviceInv(s.q, e.d, ClientAfter(s, e))
  {
    hide Inv, DeviceInv, Truthful, Holding, NoRowOf, NoOutboxOf, Recorded, IsCommitted, Announced, Journaled, Marked, Accepted, Dropped, Queued, WithoutOutbox, Choosing;
    ChooseInv(s.q, e.d, s.clients[e.d], if e.Forgets? then e.k else Key(Dataset(0), Path(0)));
  }

  lemma VersionedInv(s: System, e: Event)
    requires Enabled(s, e) && Inv(s.q) && DeviceInv(s.q, e.d, s.clients[e.d]) && IsLocal(e) && !IsPlain(e)
    ensures DeviceInv(s.q, e.d, ClientAfter(s, e))
  {
    hide Inv, DeviceInv, Enabled, ClientAfter;
    match e {
      case Snapshots(d, m) => SnapshotsInv(s, d, m);
      case Announces(d, id) => AnnouncesInv(s, d, id);
      case Journals(d, m) => JournalsInv(s, d, m);
      case Marks(d, id) => MarksInv(s, d, id);
      case Accepts(d, id) => AcceptsInv(s, d, id);
      case Drops(d, id) => DropsInv(s, d, id);
      case Chooses(_) => ChoosesInv(s, e);
      case Forgets(_, _) => ChoosesInv(s, e);
    }
  }

  lemma LocalInv(s: System, e: Event)
    requires Enabled(s, e) && IsLocal(e) && Inv(s.q) && DeviceInv(s.q, e.d, s.clients[e.d])
    ensures DeviceInv(s.q, e.d, ClientAfter(s, e))
  {
    hide Inv, DeviceInv, Enabled, ClientAfter;
    if IsPlain(e) { PlainInv(s, e); } else { VersionedInv(s, e); }
  }

  lemma LocalApart(s: System, e: Event)
    requires Enabled(s, e) && IsLocal(e) && OutboxesApart(s.clients)
    ensures OutboxesApart(s.clients[e.d := ClientAfter(s, e)])
  {
    hide OutboxesApart;
    if e.Snapshots? {
      SnapshotApart(s, e.d, e.m);
    } else {
      OutboxShrinks(s, e);
      hide Enabled, ClientAfter;
      ApartKept(s.clients, e.d, ClientAfter(s, e));
    }
  }

  lemma StepLocal(s: System, e: Event)
    requires SystemOk(s) && Enabled(s, e) && IsLocal(e)
    ensures SystemOk(Step(s, e))
  {
    hide Inv, Honest, DeviceInv, KnownDevices, OutboxesApart, Enabled, ClientAfter, Step, IsLocal;
    EnabledDevice(s, e);
    LocalIs(s, e);
    LocalInv(s, e);
    LocalApart(s, e);
    LocalOk(s, e.d, ClientAfter(s, e));
  }

  lemma StepOk(s: System, e: Event)
    requires SystemOk(s)
    ensures SystemOk(Step(s, e))
  {
    hide SystemOk, Enabled, BrokerAfter, ClientAfter;
    if Enabled(s, e) {
      match e {
        case Asks(d, r) => AsksOk(s, d, r);
        case Prepares(d, id) => StepPrepares(s, d, id);
        case Puts(d, id, h, offset, n) => StepPuts(s, d, id, h, offset, n);
        case Commits(d, id) => StepCommits(s, d, id);
        case Restages(d, id) => StepRestages(s, d, id);
        case Confirms(d, id) => StepConfirms(s, d, id);
        case _ => StepLocal(s, e);
      }
    }
  }

  /** Whatever the devices do, in whatever order, every reachable state satisfies the invariant. */
  lemma {:induction false} RunOk(s: System, events: seq<Event>)
    requires SystemOk(s)
    ensures SystemOk(Run(s, events))
    decreases |events|
  {
    hide SystemOk, Step;
    if events != [] {
      StepOk(s, events[0]);
      RunOk(Step(s, events[0]), events[1..]);
    }
  }

  lemma StartOk(quota: nat, devices: set<Device>)
    ensures SystemOk(Start(quota, devices))
  {
    EmptyInv(quota);
    hide Inv;
  }
}
