/** What every request keeps true of the broker's tables and files. */
module BrokerInvariants {
  import opened Base
  import opened BrokerState

  // ---------------------------------------------------------------- the invariant, table by table

  /** `order` lists every job once, at the position that is its number. */
  ghost predicate Numbered(jobs: map<JobId, Job>, order: seq<JobId>) {
    && (forall i | 0 <= i < |order| :: order[i] in jobs && jobs[order[i]].number == i)
    && (forall id | id in jobs :: jobs[id].number < |order| && order[jobs[id].number] == id)
  }

  ghost predicate WellFormed(jobs: map<JobId, Job>) {
    forall id | id in jobs ::
      var job := jobs[id];
      && job.manifest.id == id && ValidManifest(job.manifest)
      && job.blocks == Sizes(job.manifest.chunks)
      && job.needs <= job.blocks.Keys
      && job.manifest.origin in job.recipients
  }

  /** Every version was staged on a committed version of the same file with a smaller number. */
  ghost predicate Parented(jobs: map<JobId, Job>) {
    forall id | id in jobs && jobs[id].manifest.parent.Some? ::
      var p := jobs[id].manifest.parent.value;
      p in jobs && jobs[p].Committed() && jobs[p].manifest.key == jobs[id].manifest.key && jobs[p].number < jobs[id].number
  }

  /** A version with all its ancestors, oldest first. */
  ghost function Lineage(jobs: map<JobId, Job>, id: JobId): seq<JobId>
    decreases if id in jobs then jobs[id].number + 1 else 0
  {
    if id !in jobs then []
    else
      match jobs[id].manifest.parent
      case None => [id]
      case Some(p) => (if p in jobs && jobs[p].number < jobs[id].number then Lineage(jobs, p) else []) + [id]
  }

  /** Heads name committed versions, and every committed version of a file is an ancestor of its head. */
  ghost predicate Headed(jobs: map<JobId, Job>, heads: map<Key, JobId>) {
    && (forall k | k in heads :: heads[k] in jobs && jobs[heads[k]].Committed() && jobs[heads[k]].manifest.key == k)
    && (forall id | id in jobs && jobs[id].Committed() ::
          jobs[id].manifest.key in heads && id in Lineage(jobs, heads[jobs[id].manifest.key]))
  }

  /** No two committed versions of a file have the same parent. */
  ghost predicate OnlyChildren(jobs: map<JobId, Job>) {
    forall a, b | a in jobs && b in jobs && jobs[a].Committed() && jobs[b].Committed()
                  && jobs[a].manifest.key == jobs[b].manifest.key && jobs[a].manifest.parent == jobs[b].manifest.parent ::
      a == b
  }

  /** Receipts belong to committed versions, the source's own among them, and stand for held blocks. */
  ghost predicate ReceiptsBacked(jobs: map<JobId, Job>, inventory: map<(Device, Hash), nat>) {
    forall id | id in jobs ::
      && (jobs[id].state == STAGING ==> jobs[id].receipts == {})
      && (jobs[id].Committed() ==> jobs[id].manifest.origin in jobs[id].receipts)
      && (jobs[id].state == DELIVERED ==> jobs[id].recipients <= jobs[id].receipts)
      && (forall d, h | d in jobs[id].receipts && h in jobs[id].blocks :: (d, h) in inventory)
  }

  ghost predicate BoundReceive(jobs: map<JobId, Job>, bindings: set<(Dataset, Device)>) {
    forall b, id | b in bindings && id in jobs && jobs[id].manifest.key.dataset == b.0 :: b.1 in jobs[id].recipients
  }

  /** Files on disk belong to object rows, finished blocks hash to their names, the rows say what is on disk. */
  ghost predicate FilesTracked(objects: map<Hash, Object>, chunks: map<Hash, Bytes>, uploads: map<Hash, Bytes>) {
    && chunks.Keys <= objects.Keys && uploads.Keys <= objects.Keys && chunks.Keys !! uploads.Keys
    && (forall h | h in objects :: objects[h].size > 0)
    && (forall h | h in chunks ::
          Sha256(chunks[h]) == h && |chunks[h]| == objects[h].size && objects[h] == Object(objects[h].size, true, objects[h].size))
    && (forall h | h in uploads :: |uploads[h]| < objects[h].size && objects[h] == Object(objects[h].size, false, |uploads[h]|))
    && (forall h | h in objects && h !in chunks && h !in uploads :: objects[h] == Object(objects[h].size, false, 0))
  }

  /** A staged version still has a row for every block it was told to upload. */
  ghost predicate StagedTracked(jobs: map<JobId, Job>, objects: map<Hash, Object>) {
    forall id | id in jobs && jobs[id].state == STAGING :: jobs[id].needs <= objects.Keys
  }

  ghost predicate WithinQuota(objects: map<Hash, Object>, quota: nat) {
    Allocated(objects) <= quota
  }

  ghost predicate Inv(q: Queue) {
    && Numbered(q.jobs, q.order)
    && WellFormed(q.jobs)
    && Parented(q.jobs)
    && Headed(q.jobs, q.heads)
    && OnlyChildren(q.jobs)
    && ReceiptsBacked(q.jobs, q.inventory)
    && BoundReceive(q.jobs, q.bindings)
    && FilesTracked(q.objects, q.chunks, q.uploads)
    && StagedTracked(q.jobs, q.objects)
    && WithinQuota(q.objects, q.quota)
  }

  // ---------------------------------------------------------------- lineages

  lemma {:induction false} LineageMembers(jobs: map<JobId, Job>, id: JobId, a: JobId)
    requires Parented(jobs) && id in jobs && a in Lineage(jobs, id)
    ensures a in jobs && jobs[a].manifest.key == jobs[id].manifest.key && jobs[a].number <= jobs[id].number
    ensures a == id || (jobs[a].Committed() && jobs[a].number < jobs[id].number)
    decreases jobs[id].number
  {
    if a != id {
      var p := jobs[id].manifest.parent.value;
      LineageMembers(jobs, p, a);
    }
  }

  /** Adding versions, or changing anything but manifests and numbers, changes no lineage. */
  lemma {:induction false} LineageStable(jobs: map<JobId, Job>, jobs': map<JobId, Job>, id: JobId)
    requires Parented(jobs) && id in jobs
    requires forall i | i in jobs :: i in jobs' && jobs'[i].manifest == jobs[i].manifest && jobs'[i].number == jobs[i].number
    ensures Lineage(jobs', id) == Lineage(jobs, id)
    decreases jobs[id].number
  {
    if jobs[id].manifest.parent.Some? {
      LineageStable(jobs, jobs', jobs[id].manifest.parent.value);
    }
  }

  /** An ancestor of an ancestor is an ancestor. */
  lemma {:induction false} LineageTransitive(jobs: map<JobId, Job>, c: JobId, b: JobId, a: JobId)
    requires Parented(jobs) && c in jobs && b in jobs && b in Lineage(jobs, c) && a in Lineage(jobs, b)
    ensures a in Lineage(jobs, c)
    decreases jobs[c].number
  {
    if b != c {
      LineageTransitive(jobs, jobs[c].manifest.parent.value, b, a);
    }
  }

  /** In one lineage, every member but the last is the parent of the next one. */
  lemma {:induction false} LineageChain(jobs: map<JobId, Job>, id: JobId)
    requires Parented(jobs) && id in jobs
    ensures var l := Lineage(jobs, id);
      && |l| > 0 && l[|l| - 1] == id
      && (forall i | 0 <= i < |l| :: l[i] in jobs)
      && jobs[l[0]].manifest.parent == None
      && forall i | 0 <= i < |l| - 1 :: jobs[l[i + 1]].manifest.parent == Some(l[i]) && jobs[l[i]].number < jobs[l[i + 1]].number
    decreases jobs[id].number
  {
    if jobs[id].manifest.parent.Some? {
      LineageChain(jobs, jobs[id].manifest.parent.value);
    }
  }

  // ---------------------------------------------------------------- sizes and inventories

  lemma {:induction false} SizesKeys(chunks: seq<Chunk>)
    ensures forall h :: h in Sizes(chunks) <==> exists i :: 0 <= i < |chunks| && chunks[i].hash == h
    ensures forall h | h in Sizes(chunks) :: exists i :: 0 <= i < |chunks| && chunks[i] == Chunk(h, Sizes(chunks)[h])
  {
    if chunks != [] {
      var last := |chunks| - 1;
      SizesKeys(chunks[..last]);
      assert chunks == chunks[..last] + [chunks[last]];
      assert chunks[last] == Chunk(chunks[last].hash, Sizes(chunks)[chunks[last].hash]);
    }
  }

  lemma {:induction false} StockedKeys(inventory: map<(Device, Hash), nat>, d: Device, chunks: seq<Chunk>)
    ensures forall e, h :: (e, h) in Stocked(inventory, d, chunks) <==> (e, h) in inventory || (e == d && h in Sizes(chunks))
  {
    if chunks != [] {
      StockedKeys(inventory, d, chunks[..|chunks| - 1]);
    }
  }

  // ---------------------------------------------------------------- changes that leave the history alone

  /** The same versions in the same states of commitment; only delivery bookkeeping differs. */
  ghost predicate SameHistory(jobs: map<JobId, Job>, jobs': map<JobId, Job>) {
    && jobs'.Keys == jobs.Keys
    && forall id | id in jobs ::
         && jobs'[id].manifest == jobs[id].manifest && jobs'[id].number == jobs[id].number
         && jobs'[id].blocks == jobs[id].blocks && jobs'[id].Committed() == jobs[id].Committed()
  }

  lemma HistoryKept(jobs: map<JobId, Job>, jobs': map<JobId, Job>, order: seq<JobId>, heads: map<Key, JobId>)
    requires SameHistory(jobs, jobs')
    requires Numbered(jobs, order) && Parented(jobs) && Headed(jobs, heads) && OnlyChildren(jobs)
    ensures Numbered(jobs', order) && Parented(jobs') && Headed(jobs', heads) && OnlyChildren(jobs')
  {
    forall id | id in jobs' && jobs'[id].Committed()
      ensures jobs'[id].manifest.key in heads && id in Lineage(jobs', heads[jobs'[id].manifest.key])
    {
      LineageStable(jobs, jobs', heads[jobs[id].manifest.key]);
    }
  }

  // ---------------------------------------------------------------- prepare

  /** A job staged on the head of its file, numbered last. */
  ghost predicate StagesOn(q: Queue, id: JobId, job: Job) {
    && id !in q.jobs && job.manifest.id == id && job.number == |q.order| && job.state == STAGING
    && HeadOf(q, job.manifest.key) == job.manifest.parent
  }

  lemma StagedParented(q: Queue, id: JobId, job: Job)
    requires Numbered(q.jobs, q.order) && Parented(q.jobs) && Headed(q.jobs, q.heads) && StagesOn(q, id, job)
    ensures Numbered(q.jobs[id := job], q.order + [id]) && Parented(q.jobs[id := job])
  {
    hide Lineage;
  }

  lemma StagedHeaded(q: Queue, id: JobId, job: Job)
    requires Parented(q.jobs) && Headed(q.jobs, q.heads) && StagesOn(q, id, job)
    ensures Headed(q.jobs[id := job], q.heads)
  {
    hide Lineage;
    forall a | a in q.jobs && q.jobs[a].Committed()
      ensures a in Lineage(q.jobs[id := job], q.heads[q.jobs[a].manifest.key])
    {
      LineageStable(q.jobs, q.jobs[id := job], q.heads[q.jobs[a].manifest.key]);
    }
  }

  lemma NewObjectsAllocated(objects: map<Hash, Object>, extra: map<Hash, nat>)
    requires objects.Keys !! extra.Keys
    ensures Allocated(objects + NewObjects(extra)) == Allocated(objects) + Total(extra)
  {
    hide Total;
    TotalPatch(SizesOf(objects + NewObjects(extra)), SizesOf(objects), extra);
  }

  lemma NewObjectsTracked(q: Queue, extra: map<Hash, nat>)
    requires FilesTracked(q.objects, q.chunks, q.uploads)
    requires q.objects.Keys !! extra.Keys && forall h | h in extra :: extra[h] > 0
    ensures FilesTracked(q.objects + NewObjects(extra), q.chunks, q.uploads)
  {
  }

  lemma PositiveSizes(m: Manifest)
    requires ValidManifest(m)
    ensures forall h | h in Sizes(m.chunks) :: 0 < Sizes(m.chunks)[h] <= MAX_CHUNK
  {
    SizesKeys(m.chunks);
  }

  lemma StagedDelivery(q: Queue, role: Device, m: Manifest, id: JobId, job: Job)
    requires StagesOn(q, id, job) && job == Staged(q, role, m).jobs[m.id] && id == m.id && m.origin == role && ValidManifest(m)
    requires WellFormed(q.jobs) && OnlyChildren(q.jobs) && ReceiptsBacked(q.jobs, q.inventory) && BoundReceive(q.jobs, q.bindings)
    ensures WellFormed(q.jobs[id := job]) && OnlyChildren(q.jobs[id := job])
    ensures ReceiptsBacked(q.jobs[id := job], q.inventory) && BoundReceive(q.jobs[id := job], q.bindings)
  {
    hide Sizes, ValidManifest, NewObjects, Absent;
    forall b | b in q.bindings && b.0 == m.key.dataset
      ensures b.1 in job.recipients
    {
      if b.1 != role {
        assert b.1 in Others(q, m.key.dataset, role);
      }
    }
  }

  lemma StagedInv(q: Queue, role: Device, m: Manifest)
    requires Inv(q) && m.id !in q.jobs && HeadOf(q, m.key) == m.parent && ValidManifest(m) && m.origin == role
    requires Allocated(q.objects) + Total(Absent(Needed(q, role, m), q.objects)) <= q.quota
    ensures Inv(Staged(q, role, m))
  {
    hide Numbered, WellFormed, Parented, Headed, OnlyChildren, ReceiptsBacked, BoundReceive, FilesTracked, ValidManifest;
    var q' := Staged(q, role, m);
    var job := q'.jobs[m.id];
    assert StagesOn(q, m.id, job);
    StagedParented(q, m.id, job);
    StagedHeaded(q, m.id, job);
    StagedDelivery(q, role, m, m.id, job);
    PositiveSizes(m);
    var extra := Absent(Needed(q, role, m), q.objects);
    NewObjectsAllocated(q.objects, extra);
    NewObjectsTracked(q, extra);
  }

  lemma PrepareInv(q: Queue, role: Device, m: Manifest)
    requires Inv(q) && Prepare(q, role, m).Done?
    ensures Inv(Prepare(q, role, m).after)
  {
    if m.id !in q.jobs {
      StagedInv(q, role, m);
    }
  }

  // ---------------------------------------------------------------- put

  lemma ResizedAllocated(objects: map<Hash, Object>, h: Hash, o: Object)
    requires h in objects && o.size == objects[h].size
    ensures Allocated(objects[h := o]) == Allocated(objects)
  {
    assert SizesOf(objects[h := o]) == SizesOf(objects);
  }

  /** Re-reading a file never changes a row: the rows already say what is on disk. */
  lemma RefreshedSame(q: Queue, h: Hash)
    requires FilesTracked(q.objects, q.chunks, q.uploads) && h in q.objects
    ensures var at := Offset(q, h, q.objects[h].size); at.Some? && Refreshed(q, h, at.value) == q
    ensures Offset(q, h, q.objects[h].size) == Some(q.objects[h].progress)
    ensures h in q.chunks <==> q.objects[h].progress == q.objects[h].size
  {
    assert q.objects[h := q.objects[h]] == q.objects;
  }

  lemma PartTracked(objects: map<Hash, Object>, chunks: map<Hash, Bytes>, uploads: map<Hash, Bytes>, h: Hash, part: Bytes)
    requires FilesTracked(objects, chunks, uploads) && h in objects && h !in chunks && |part| < objects[h].size
    ensures FilesTracked(objects[h := Object(objects[h].size, false, |part|)], chunks, uploads[h := part])
    ensures FilesTracked(objects[h := Object(objects[h].size, false, 0)], chunks, uploads - {h})
  {
  }

  lemma ChunkTracked(objects: map<Hash, Object>, chunks: map<Hash, Bytes>, uploads: map<Hash, Bytes>, h: Hash, block: Bytes)
    requires FilesTracked(objects, chunks, uploads) && h in objects && h !in chunks
    requires |block| == objects[h].size && Sha256(block) == h
    ensures FilesTracked(objects[h := Object(|block|, true, |block|)], chunks[h := block], uploads - {h})
  {
  }

  lemma AppendedTracked(q: Queue, h: Hash, payload: Bytes)
    requires FilesTracked(q.objects, q.chunks, q.uploads) && h in q.objects && h !in q.chunks
    requires |Part(q, h)| + |payload| <= q.objects[h].size && payload != []
    ensures var q' := Appended(q, h, payload).0;
      && FilesTracked(q'.objects, q'.chunks, q'.uploads)
      && q' == q.(objects := q'.objects, chunks := q'.chunks, uploads := q'.uploads)
      && h in q'.objects && q'.objects == q.objects[h := q'.objects[h]] && q'.objects[h].size == q.objects[h].size
  {
    hide FilesTracked;
    var part := Part(q, h) + payload;
    if |part| < q.objects[h].size {
      PartTracked(q.objects, q.chunks, q.uploads, h, part);
    } else if Sha256(part) == h {
      ChunkTracked(q.objects, q.chunks, q.uploads, h, part);
    } else {
      assert q.objects[h].size > 0 by { SizePositive(q, h); }
      PartTracked(q.objects, q.chunks, q.uploads, h, []);
    }
  }

  lemma SizePositive(q: Queue, h: Hash)
    requires FilesTracked(q.objects, q.chunks, q.uploads) && h in q.objects
    ensures q.objects[h].size > 0
  {
  }

  lemma UploadInv(q: Queue, role: Device, id: JobId, h: Hash, offset: Option<nat>, payload: Bytes)
    requires Inv(q) && Upload(q, role, id, h, offset, payload).Done?
    ensures Inv(Upload(q, role, id, h, offset, payload).after)
    ensures Upload(q, role, id, h, offset, payload).after.jobs == q.jobs
  {
    hide Numbered, WellFormed, Parented, Headed, OnlyChildren, ReceiptsBacked, BoundReceive, FilesTracked, Appended, Offset, Refreshed;
    RefreshedSame(q, h);
    var q' := Upload(q, role, id, h, offset, payload).after;
    if q' != q {
      assert q' == Appended(q, h, payload).0;
      OpenPart(q, h);
      AppendedTracked(q, h, payload);
      ResizedAllocated(q.objects, h, q'.objects[h]);
    }
  }

  /** Unless the block is already published, the offset is the length of its partial file. */
  lemma OpenPart(q: Queue, h: Hash)
    requires h in q.objects && Offset(q, h, q.objects[h].size).Some?
    ensures h in q.chunks ==> Offset(q, h, q.objects[h].size).value == q.objects[h].size
    ensures h !in q.chunks ==> Offset(q, h, q.objects[h].size).value == |Part(q, h)|
  {
  }

  // ---------------------------------------------------------------- commit

  /** A commit reads back rows that already say "complete", so it only changes job, head and inventory. */
  lemma CommitObjects(q: Queue, id: JobId)
    requires FilesTracked(q.objects, q.chunks, q.uploads) && id in q.jobs && Uploaded(q, id)
    ensures Published(q, id).objects == q.objects
    ensures forall h | h in Tracked(q, id) :: h in q.chunks
  {
    forall h | h in Tracked(q, id)
      ensures h in q.chunks && Object(q.objects[h].size, h in q.chunks, q.objects[h].size) == q.objects[h]
    {
      RefreshedSame(q, h);
    }
  }

  /** No committed version has the head as its parent. */
  lemma HeadChildless(q: Queue, a: JobId)
    requires Parented(q.jobs) && Headed(q.jobs, q.heads) && a in q.jobs && q.jobs[a].Committed()
    ensures q.jobs[a].manifest.parent != HeadOf(q, q.jobs[a].manifest.key)
  {
    LineageMembers(q.jobs, q.heads[q.jobs[a].manifest.key], a);
  }

  /** A staged job whose parent is still the head of its file. */
  ghost predicate Publishable(q: Queue, id: JobId, job: Job) {
    && id in q.jobs && q.jobs[id].state == STAGING && job.state == READY
    && job.manifest == q.jobs[id].manifest && job.number == q.jobs[id].number
    && HeadOf(q, job.manifest.key) == job.manifest.parent
  }

  lemma PublishedParented(q: Queue, id: JobId, job: Job)
    requires Numbered(q.jobs, q.order) && Parented(q.jobs) && Publishable(q, id, job)
    ensures Numbered(q.jobs[id := job], q.order) && Parented(q.jobs[id := job])
  {
  }

  lemma PublishedOnly(q: Queue, id: JobId, job: Job)
    requires Parented(q.jobs) && Headed(q.jobs, q.heads) && OnlyChildren(q.jobs) && Publishable(q, id, job)
    ensures OnlyChildren(q.jobs[id := job])
  {
    hide Lineage, Parented, Headed;
    forall a | a in q.jobs && q.jobs[a].Committed() && q.jobs[a].manifest.key == job.manifest.key
      ensures q.jobs[a].manifest.parent != job.manifest.parent
    {
      HeadChildless(q, a);
    }
  }

  lemma PublishedHeaded(q: Queue, id: JobId, job: Job)
    requires Parented(q.jobs) && Headed(q.jobs, q.heads) && Publishable(q, id, job)
    ensures Headed(q.jobs[id := job], q.heads[job.manifest.key := id])
  {
    var jobs' := q.jobs[id := job];
    var k := job.manifest.key;
    LineageStable(q.jobs, jobs', id);
    forall a | a in jobs' && jobs'[a].Committed()
      ensures jobs'[a].manifest.key in q.heads[k := id]
      ensures a in Lineage(jobs', q.heads[k := id][jobs'[a].manifest.key])
    {
      if a != id {
        LineageStable(q.jobs, jobs', q.heads[q.jobs[a].manifest.key]);
      }
    }
  }

  lemma PublishedReceipts(q: Queue, id: JobId)
    requires WellFormed(q.jobs) && ReceiptsBacked(q.jobs, q.inventory)
    requires id in q.jobs && q.jobs[id].state == STAGING
    ensures var q' := Published(q, id); WellFormed(q'.jobs) && ReceiptsBacked(q'.jobs, q'.inventory)
  {
    hide ValidManifest, Sizes, Stocked;
    StockedKeys(q.inventory, q.jobs[id].manifest.origin, q.jobs[id].manifest.chunks);
  }

  lemma PublishedInv(q: Queue, id: JobId)
    requires Inv(q) && id in q.jobs && q.jobs[id].state == STAGING && Uploaded(q, id)
    requires HeadOf(q, q.jobs[id].manifest.key) == q.jobs[id].manifest.parent
    ensures Inv(Published(q, id))
  {
    hide Numbered, WellFormed, Parented, Headed, OnlyChildren, ReceiptsBacked, FilesTracked, WithinQuota, Uploaded;
    PublishedParented(q, id, Published(q, id).jobs[id]);
    PublishedOnly(q, id, Published(q, id).jobs[id]);
    PublishedHeaded(q, id, Published(q, id).jobs[id]);
    PublishedReceipts(q, id);
    CommitObjects(q, id);
  }

  lemma CommitInv(q: Queue, role: Device, id: JobId)
    requires Inv(q) && Commit(q, role, id).Done?
    ensures Inv(Commit(q, role, id).after)
  {
    if !q.jobs[id].Committed() {
      PublishedInv(q, id);
    }
  }

  // ---------------------------------------------------------------- ack and gc

  lemma ReceiptedReceipts(q: Queue, role: Device, id: JobId)
    requires WellFormed(q.jobs) && ReceiptsBacked(q.jobs, q.inventory) && id in q.jobs && q.jobs[id].Committed()
    ensures var q' := Receipted(q, role, id);
      WellFormed(q'.jobs) && ReceiptsBacked(q'.jobs, q'.inventory) && SameHistory(q.jobs, q'.jobs)
  {
    hide ValidManifest, Sizes, Stocked;
    StockedKeys(q.inventory, role, q.jobs[id].manifest.chunks);
  }

  lemma ReceiptedInv(q: Queue, role: Device, id: JobId)
    requires Inv(q) && id in q.jobs && q.jobs[id].Committed()
    ensures Inv(Receipted(q, role, id))
  {
    hide Numbered, WellFormed, Parented, Headed, OnlyChildren, ReceiptsBacked, FilesTracked, WithinQuota, SameHistory;
    ReceiptedReceipts(q, role, id);
    HistoryKept(q.jobs, Receipted(q, role, id).jobs, q.order, q.heads);
  }

  lemma GcTracked(q: Queue)
    requires WellFormed(q.jobs) && FilesTracked(q.objects, q.chunks, q.uploads) && StagedTracked(q.jobs, q.objects)
    ensures var q' := Gc(q); FilesTracked(q'.objects, q'.chunks, q'.uploads) && StagedTracked(q'.jobs, q'.objects)
  {
    forall id | id in q.jobs && q.jobs[id].state == STAGING
      ensures q.jobs[id].needs <= Gc(q).objects.Keys
    {
      forall h | h in q.jobs[id].needs
        ensures !Obsolete(q, h)
      {
        assert h in q.jobs[id].blocks;
      }
    }
  }

  lemma GcInv(q: Queue)
    requires Inv(q)
    ensures Inv(Gc(q))
  {
    hide Numbered, WellFormed, Parented, Headed, OnlyChildren, ReceiptsBacked, BoundReceive, FilesTracked, StagedTracked;
    GcTracked(q);
    TotalMonotone(SizesOf(Gc(q).objects), SizesOf(q.objects));
  }

  // ---------------------------------------------------------------- bind, repair, upgrade

  lemma BindDelivery(q: Queue, role: Device, ds: Dataset)
    requires WellFormed(q.jobs) && ReceiptsBacked(q.jobs, q.inventory) && BoundReceive(q.jobs, q.bindings) && ds in q.datasets
    ensures var q' := Bind(q, role, ds).after;
      && WellFormed(q'.jobs) && ReceiptsBacked(q'.jobs, q'.inventory) && BoundReceive(q'.jobs, q'.bindings)
      && SameHistory(q.jobs, q'.jobs)
  {
    hide ValidManifest, Sizes;
  }

  lemma BindInv(q: Queue, role: Device, ds: Dataset)
    requires Inv(q) && Bind(q, role, ds).Done?
    ensures Inv(Bind(q, role, ds).after)
  {
    hide Numbered, WellFormed, Parented, Headed, OnlyChildren, ReceiptsBacked, BoundReceive, FilesTracked, WithinQuota, SameHistory;
    BindDelivery(q, role, ds);
    HistoryKept(q.jobs, Bind(q, role, ds).after.jobs, q.order, q.heads);
  }

  lemma UnbindInv(q: Queue, role: Device, ds: Dataset)
    requires Inv(q) && Unbind(q, role, ds).Done?
    ensures Inv(Unbind(q, role, ds).after)
  {
  }

  lemma RepairDelivery(q: Queue, id: JobId)
    requires WellFormed(q.jobs) && ReceiptsBacked(q.jobs, q.inventory) && BoundReceive(q.jobs, q.bindings)
    requires id in q.jobs && q.jobs[id].state == READY && StagedTracked(q.jobs, q.objects)
    ensures var q' := Restaged(q, id);
      && WellFormed(q'.jobs) && ReceiptsBacked(q'.jobs, q'.inventory) && BoundReceive(q'.jobs, q'.bindings)
      && StagedTracked(q'.jobs, q'.objects) && SameHistory(q.jobs, q'.jobs)
  {
    hide ValidManifest, Sizes, Wanted, NewObjects;
  }

  lemma RepairObjects(q: Queue, id: JobId)
    requires WellFormed(q.jobs) && FilesTracked(q.objects, q.chunks, q.uploads) && id in q.jobs
    requires Allocated(q.objects) + Total(Absent(Missing(q, q.jobs[id]), q.objects)) <= q.quota
    ensures var q' := Restaged(q, id); FilesTracked(q'.objects, q'.chunks, q'.uploads) && WithinQuota(q'.objects, q'.quota)
  {
    hide Total, FilesTracked, Allocated, NewObjects;
    var extra := Absent(Missing(q, q.jobs[id]), q.objects);
    assert forall h | h in extra :: extra[h] > 0 by { PositiveSizes(q.jobs[id].manifest); }
    hide WellFormed, Missing;
    NewObjectsAllocated(q.objects, extra);
    NewObjectsTracked(q, extra);
  }

  lemma RepairInv(q: Queue, role: Device, id: JobId)
    requires Inv(q) && RepairPrepare(q, role, id).Done?
    ensures Inv(RepairPrepare(q, role, id).after)
  {
    hide Total, Allocated, Absent, Missing, NewObjects;
    hide Numbered, WellFormed, Parented, Headed, OnlyChildren, ReceiptsBacked, BoundReceive, FilesTracked, StagedTracked, WithinQuota, SameHistory;
    RepairDelivery(q, id);
    HistoryKept(q.jobs, Restaged(q, id).jobs, q.order, q.heads);
    RepairObjects(q, id);
  }

  /** The upgrade that every session runs finds nothing left to do. */
  lemma UpgradeSame(q: Queue)
    requires Inv(q)
    ensures Upgrade(q) == q
  {
    forall id | id in q.jobs
      ensures q.jobs[id].recipients + {q.jobs[id].manifest.origin} + Bound(q, q.jobs[id].manifest.key.dataset)
              == q.jobs[id].recipients
    {
      AlreadyRecipients(q, id);
    }
    hide Inv, Bound;
    assert Upgrade(q).jobs == q.jobs;
  }

  lemma AlreadyRecipients(q: Queue, id: JobId)
    requires WellFormed(q.jobs) && BoundReceive(q.jobs, q.bindings) && id in q.jobs
    ensures {q.jobs[id].manifest.origin} + Bound(q, q.jobs[id].manifest.key.dataset) <= q.jobs[id].recipients
  {
  }

  lemma EmptyInv(quota: nat)
    ensures Inv(Empty(quota))
  {
    assert SizesOf(map[]) == map[];
  }
}
