/** What the broker promises its devices, whatever requests they have sent. */
module BrokerGuarantees {
  import opened Base
  import opened BrokerState
  import opened BrokerInvariants

  // ---------------------------------------------------------------- every run of requests

  /** The write transactions of the broker; an acknowledgement is a receipt followed by a collection. */
  datatype Request =
    | CreateDatasetRequest(ds: Dataset)
    | BindRequest(ds: Dataset)
    | UnbindRequest(ds: Dataset)
    | UpgradeRequest
    | PrepareRequest(manifest: Manifest)
    | PutRequest(id: JobId, hash: Hash, offset: Option<nat>, payload: Bytes)
    | CommitRequest(id: JobId)
    | ReceiptRequest(id: JobId, digest: Digest)
    | CollectRequest
    | RepairRequest(id: JobId)

  function After<R>(q: Queue, o: Outcome<R>): Queue {
    if o.Done? then o.after else q
  }

  ghost function Handle(q: Queue, role: Device, r: Request): Queue {
    match r
    case CreateDatasetRequest(ds) => After(q, CreateDataset(q, ds))
    case BindRequest(ds) => After(q, Bind(q, role, ds))
    case UnbindRequest(ds) => After(q, Unbind(q, role, ds))
    case UpgradeRequest => Upgrade(q)
    case PrepareRequest(m) => After(q, Prepare(q, role, m))
    case PutRequest(id, h, offset, payload) => After(q, Upload(q, role, id, h, offset, payload))
    case CommitRequest(id) => After(q, Commit(q, role, id))
    case ReceiptRequest(id, digest) => After(q, Receipt(q, role, id, digest))
    case CollectRequest => Gc(q)
    case RepairRequest(id) => After(q, RepairPrepare(q, role, id))
  }

  ghost function Serve(q: Queue, requests: seq<(Device, Request)>): Queue
    decreases |requests|
  {
    if requests == [] then q else Serve(Handle(q, requests[0].0, requests[0].1), requests[1..])
  }

  lemma HandleInv(q: Queue, role: Device, r: Request)
    requires Inv(q)
    ensures Inv(Handle(q, role, r))
  {
    hide Inv;
    match r
    case CreateDatasetRequest(ds) => CreateInv(q, ds);
    case BindRequest(ds) => if Bind(q, role, ds).Done? { BindInv(q, role, ds); }
    case UnbindRequest(ds) => if Unbind(q, role, ds).Done? { UnbindInv(q, role, ds); }
    case UpgradeRequest => UpgradeSame(q);
    case PrepareRequest(m) => if Prepare(q, role, m).Done? { PrepareInv(q, role, m); }
    case PutRequest(id, h, offset, payload) =>
      if Upload(q, role, id, h, offset, payload).Done? { UploadInv(q, role, id, h, offset, payload); }
    case CommitRequest(id) => if Commit(q, role, id).Done? { CommitInv(q, role, id); }
    case ReceiptRequest(id, digest) => if Receipt(q, role, id, digest).Done? { ReceiptedInv(q, role, id); }
    case CollectRequest => GcInv(q);
    case RepairRequest(id) => if RepairPrepare(q, role, id).Done? { RepairInv(q, role, id); }
  }

  lemma CreateInv(q: Queue, ds: Dataset)
    requires Inv(q)
    ensures Inv(After(q, CreateDataset(q, ds)))
  {
  }

  /** Any requests by any devices, from the empty queue on, keep the invariant. */
  lemma {:induction false} ServeInv(q: Queue, requests: seq<(Device, Request)>)
    requires Inv(q)
    ensures Inv(Serve(q, requests))
    decreases |requests|
  {
    hide Inv, Handle;
    if requests != [] {
      HandleInv(q, requests[0].0, requests[0].1);
      ServeInv(Handle(q, requests[0].0, requests[0].1), requests[1..]);
    }
  }

  // ---------------------------------------------------------------- single history

  /** The committed versions of a file, oldest first. */
  ghost function History(q: Queue, k: Key): seq<JobId> {
    if k in q.heads then Lineage(q.jobs, q.heads[k]) else []
  }

  /** The committed versions of a file are one chain of parents from a first version to the head. */
  lemma SingleHistory(quota: nat, requests: seq<(Device, Request)>, k: Key)
    ensures var q := Serve(Empty(quota), requests); var h := History(q, k);
      && (forall id :: id in h <==> id in q.jobs && q.jobs[id].Committed() && q.jobs[id].manifest.key == k)
      && (h == [] <==> k !in q.heads)
      && (h != [] ==> q.jobs[h[0]].manifest.parent == None && h[|h| - 1] == q.heads[k])
      && (forall i | 0 <= i < |h| - 1 ::
            q.jobs[h[i + 1]].manifest.parent == Some(h[i]) && q.jobs[h[i]].number < q.jobs[h[i + 1]].number)
      && (forall a, b | a in h && b in h && q.jobs[a].manifest.parent == q.jobs[b].manifest.parent :: a == b)
  {
    hide Serve, Lineage, Numbered, WellFormed, ReceiptsBacked, BoundReceive, FilesTracked, StagedTracked, WithinQuota, OnlyChildren;
    EmptyInv(quota);
    ServeInv(Empty(quota), requests);
    ChainOf(Serve(Empty(quota), requests), k);
  }

  lemma ChainOf(q: Queue, k: Key)
    requires Parented(q.jobs) && Headed(q.jobs, q.heads) && OnlyChildren(q.jobs)
    ensures var h := History(q, k);
      && (forall id :: id in h <==> id in q.jobs && q.jobs[id].Committed() && q.jobs[id].manifest.key == k)
      && (h == [] <==> k !in q.heads)
      && (h != [] ==> q.jobs[h[0]].manifest.parent == None && h[|h| - 1] == q.heads[k])
      && (forall i | 0 <= i < |h| - 1 ::
            q.jobs[h[i + 1]].manifest.parent == Some(h[i]) && q.jobs[h[i]].number < q.jobs[h[i + 1]].number)
      && (forall a, b | a in h && b in h && q.jobs[a].manifest.parent == q.jobs[b].manifest.parent :: a == b)
  {
    HistoryMembers(q, k);
    if k in q.heads {
      LineageChain(q.jobs, q.heads[k]);
    }
    hide Lineage;
  }

  lemma HistoryMembers(q: Queue, k: Key)
    requires Parented(q.jobs) && Headed(q.jobs, q.heads)
    ensures forall id :: id in History(q, k) <==> id in q.jobs && q.jobs[id].Committed() && q.jobs[id].manifest.key == k
  {
    if k in q.heads {
      forall id | id in Lineage(q.jobs, q.heads[k])
        ensures id in q.jobs && q.jobs[id].Committed() && q.jobs[id].manifest.key == k
      {
        LineageMembers(q.jobs, q.heads[k], id);
      }
    }
  }

  // ---------------------------------------------------------------- pending

  lemma {:induction false} SelectMembers<T>(list: seq<T>, keep: set<T>)
    ensures forall x :: x in Select(list, keep) <==> x in list && x in keep
  {
    if list != [] {
      var last := |list| - 1;
      SelectMembers(list[..last], keep);
      assert list == list[..last] + [list[last]];
    }
  }

  /** A list of jobs by increasing staging number. */
  ghost predicate Ascending(jobs: map<JobId, Job>, ids: seq<JobId>) {
    && (forall i | 0 <= i < |ids| :: ids[i] in jobs)
    && (forall i, j | 0 <= i < j < |ids| :: jobs[ids[i]].number < jobs[ids[j]].number)
  }

  /** Each version comes after its parent, unless the device already has the parent's receipt. */
  ghost predicate ParentsFirst(jobs: map<JobId, Job>, role: Device, ids: seq<JobId>) {
    forall i | 0 <= i < |ids| && ids[i] in jobs && jobs[ids[i]].manifest.parent.Some? ::
      var parent := jobs[ids[i]].manifest.parent.value;
      parent in jobs && (role in jobs[parent].receipts || parent in ids[..i])
  }

  lemma {:induction false} SelectAscending(q: Queue, n: nat, keep: set<JobId>)
    requires Numbered(q.jobs, q.order) && n <= |q.order|
    ensures Ascending(q.jobs, Select(q.order[..n], keep))
    ensures forall x | x in Select(q.order[..n], keep) :: x in q.jobs && q.jobs[x].number < n
  {
    if n > 0 {
      assert q.order[..n][..n - 1] == q.order[..n - 1];
      SelectAscending(q, n - 1, keep);
      var before := Select(q.order[..n - 1], keep);
      var s := Select(q.order[..n], keep);
      assert s == before || s == before + [q.order[n - 1]];
      forall i, j | 0 <= i < j < |s|
        ensures q.jobs[s[i]].number < q.jobs[s[j]].number
      {
        assert s[i] == before[i] && before[i] in before;
      }
    }
  }

  ghost predicate Lacks(q: Queue, role: Device, ds: Dataset, id: JobId) {
    id in q.jobs && q.jobs[id].Committed() && q.jobs[id].manifest.key.dataset == ds && role !in q.jobs[id].receipts
  }

  /** `pending` answers a bound device with exactly the committed versions it has not acknowledged, parents first. */
  lemma PendingExact(q: Queue, role: Device, ds: Dataset)
    requires Inv(q) && (ds, role) in q.bindings
    ensures var p := Pending(q, role, ds);
      && (forall id :: id in p <==> Lacks(q, role, ds, id))
      && Ascending(q.jobs, p)
      && ParentsFirst(q.jobs, role, p)
  {
    PendingMembers(q, role, ds);
    assert q.order[..|q.order|] == q.order;
    SelectAscending(q, |q.order|, set id | id in q.jobs && Awaits(q, role, ds, id));
    AscendingParents(q, role, ds, Pending(q, role, ds));
  }

  lemma PendingMembers(q: Queue, role: Device, ds: Dataset)
    requires Numbered(q.jobs, q.order) && ReceiptsBacked(q.jobs, q.inventory) && BoundReceive(q.jobs, q.bindings)
    requires (ds, role) in q.bindings
    ensures forall id :: id in Pending(q, role, ds) <==> Lacks(q, role, ds, id)
  {
    SelectMembers(q.order, set id | id in q.jobs && Awaits(q, role, ds, id));
  }

  lemma AscendingParents(q: Queue, role: Device, ds: Dataset, p: seq<JobId>)
    requires Parented(q.jobs) && Ascending(q.jobs, p)
    requires forall id :: id in p <==> Lacks(q, role, ds, id)
    ensures ParentsFirst(q.jobs, role, p)
  {
    forall i | 0 <= i < |p| && q.jobs[p[i]].manifest.parent.Some?
      ensures var parent := q.jobs[p[i]].manifest.parent.value;
        parent in q.jobs && (role in q.jobs[parent].receipts || parent in p[..i])
    {
      var parent := q.jobs[p[i]].manifest.parent.value;
      assert Lacks(q, role, ds, p[i]);
      if role !in q.jobs[parent].receipts {
        assert Lacks(q, role, ds, parent);
        var j :| 0 <= j < |p| && p[j] == parent;
      }
    }
  }

  // ---------------------------------------------------------------- delivery

  /** A recipient that has not acknowledged a version can get each of its blocks: it has the block,
      or the broker has it verified, or the source, which holds it, is asked to upload it again. */
  lemma StaysDeliverable(q: Queue, id: JobId, d: Device, h: Hash)
    requires Inv(q) && id in q.jobs && q.jobs[id].state == READY
    requires d in q.jobs[id].recipients && d !in q.jobs[id].receipts && h in q.jobs[id].blocks
    ensures var m := q.jobs[id].manifest;
      || (d, h) in q.inventory
      || (h in q.chunks && Sha256(q.chunks[h]) == h && Served(q, id, h))
      || (&& id in Repairs(q, m.origin, m.key.dataset) && (m.origin, h) in q.inventory
          && h in Missing(q, q.jobs[id]))
  {
    DeliveryFacts(q, id, d, h);
    hide Inv;
    if (d, h) !in q.inventory && h !in q.chunks {
      assert Wanted(q, q.jobs[id], h);
    }
  }

  lemma DeliveryFacts(q: Queue, id: JobId, d: Device, h: Hash)
    requires ReceiptsBacked(q.jobs, q.inventory) && FilesTracked(q.objects, q.chunks, q.uploads)
    requires id in q.jobs && q.jobs[id].state == READY && d !in q.jobs[id].receipts && h in q.jobs[id].blocks
    ensures d != q.jobs[id].manifest.origin && (q.jobs[id].manifest.origin, h) in q.inventory
    ensures h in q.chunks ==> Sha256(q.chunks[h]) == h
    ensures h !in q.chunks && h in q.objects ==> !q.objects[h].complete
  {
  }

  lemma ProgressBounded(q: Queue, h: Hash)
    requires FilesTracked(q.objects, q.chunks, q.uploads) && h in q.objects
    ensures q.objects[h].progress <= q.objects[h].size
  {
  }

  /** A version still being delivered to a bound device is never mistaken for a delivered one,
      not even when the device binds after the commit. */
  lemma BoundStaysOpen(q: Queue, id: JobId, d: Device)
    requires Inv(q) && id in q.jobs && q.jobs[id].Committed() && (q.jobs[id].manifest.key.dataset, d) in q.bindings
    ensures d in q.jobs[id].recipients
    ensures d !in q.jobs[id].receipts ==> q.jobs[id].state == READY
    ensures forall h | h in q.jobs[id].blocks && d !in q.jobs[id].receipts && h in q.objects :: h !in Garbage(q)
  {
    assert q.jobs[id].state == DELIVERED ==> q.jobs[id].recipients <= q.jobs[id].receipts;
    assert (q.jobs[id].manifest.key.dataset, d) in q.bindings;
  }

  // ---------------------------------------------------------------- quota

  /** Bytes on disk never exceed the bytes allocated, which never exceed the quota. */
  lemma QuotaKept(quota: nat, requests: seq<(Device, Request)>)
    ensures var q := Serve(Empty(quota), requests);
      && (forall h | h in q.objects :: q.objects[h].progress <= q.objects[h].size)
      && Total(map h | h in q.chunks :: |q.chunks[h]|) + Total(map h | h in q.uploads :: |q.uploads[h]|) == Stored(q.objects)
      && Stored(q.objects) <= Allocated(q.objects) <= quota
  {
    EmptyInv(quota);
    ServeInv(Empty(quota), requests);
    ServeLimits(Empty(quota), requests);
    var q := Serve(Empty(quota), requests);
    StoredBytes(q);
    forall h | h in q.objects
      ensures q.objects[h].progress <= q.objects[h].size
    {
      ProgressBounded(q, h);
    }
    TotalMonotone(map h | h in q.objects :: q.objects[h].progress, SizesOf(q.objects));
  }

  lemma {:induction false} ServeLimits(q: Queue, requests: seq<(Device, Request)>)
    ensures Serve(q, requests).quota == q.quota
    ensures |q.datasets| <= MAX_DATASETS ==> |Serve(q, requests).datasets| <= MAX_DATASETS
    decreases |requests|
  {
    if requests != [] {
      HandleLimits(q, requests[0].0, requests[0].1);
      hide Handle;
      ServeLimits(Handle(q, requests[0].0, requests[0].1), requests[1..]);
    }
  }

  lemma HandleLimits(q: Queue, role: Device, r: Request)
    ensures Handle(q, role, r).quota == q.quota
    ensures |q.datasets| <= MAX_DATASETS ==> |Handle(q, role, r).datasets| <= MAX_DATASETS
  {
    hide Prepare, Upload, Commit, RepairPrepare, Garbage;
    match r
    case PrepareRequest(m) => PrepareLimits(q, role, m);
    case PutRequest(id, h, offset, payload) => UploadLimits(q, role, id, h, offset, payload);
    case CommitRequest(id) => CommitLimits(q, role, id);
    case RepairRequest(id) => RepairLimits(q, role, id);
    case _ =>
  }

  lemma PrepareLimits(q: Queue, role: Device, m: Manifest)
    ensures var q' := After(q, Prepare(q, role, m)); q'.quota == q.quota && q'.datasets == q.datasets
  {
    hide Total, Allocated, Absent, Needed, Sizes, NewObjects, Others, ValidManifest, PlanFor;
  }

  lemma UploadLimits(q: Queue, role: Device, id: JobId, h: Hash, offset: Option<nat>, payload: Bytes)
    ensures var q' := After(q, Upload(q, role, id, h, offset, payload)); q'.quota == q.quota && q'.datasets == q.datasets
  {
    hide Offset, Appended;
    if h in q.objects {
      AppendedLimits(q, h, payload);
    }
  }

  lemma AppendedLimits(q: Queue, h: Hash, payload: Bytes)
    requires h in q.objects
    ensures var q' := Appended(q, h, payload).0; q'.quota == q.quota && q'.datasets == q.datasets
  {
    hide Part;
  }

  lemma CommitLimits(q: Queue, role: Device, id: JobId)
    ensures var q' := After(q, Commit(q, role, id)); q'.quota == q.quota && q'.datasets == q.datasets
  {
    hide Stocked, Uploaded, Sizes;
  }

  lemma RepairLimits(q: Queue, role: Device, id: JobId)
    ensures var q' := After(q, RepairPrepare(q, role, id)); q'.quota == q.quota && q'.datasets == q.datasets
  {
    hide Total, Allocated, Absent, Missing, NewObjects, PlanFor;
  }

  /** However many groups are asked for, there are never more than the limit. */
  lemma GroupsBounded(quota: nat, requests: seq<(Device, Request)>)
    ensures |Serve(Empty(quota), requests).datasets| <= MAX_DATASETS
  {
    ServeLimits(Empty(quota), requests);
  }

  lemma StoredBytes(q: Queue)
    requires FilesTracked(q.objects, q.chunks, q.uploads)
    ensures Total(map h | h in q.chunks :: |q.chunks[h]|) + Total(map h | h in q.uploads :: |q.uploads[h]|) == Stored(q.objects)
  {
    TotalSplit(map h | h in q.objects :: q.objects[h].progress, map h | h in q.chunks :: |q.chunks[h]|,
               map h | h in q.uploads :: |q.uploads[h]|);
  }

  // ---------------------------------------------------------------- lost replies

  /** Asking again for the same preparation gives the same answer and changes nothing. */
  lemma PrepareAgain(q: Queue, role: Device, m: Manifest)
    requires Prepare(q, role, m).Done?
    ensures Prepare(Prepare(q, role, m).after, role, m) == Prepare(q, role, m)
  {
  }

  /** Repeating a packet finds the offset moved on, unless it was thrown away whole; then it is thrown away again. */
  lemma UploadAgain(q: Queue, role: Device, id: JobId, h: Hash, offset: Option<nat>, payload: Bytes)
    requires Inv(q) && Upload(q, role, id, h, offset, payload).Done?
    ensures var q' := Upload(q, role, id, h, offset, payload).after;
      Upload(q', role, id, h, offset, payload).Done? && Upload(q', role, id, h, offset, payload).after == q'
  {
    hide Inv;
    var q' := Upload(q, role, id, h, offset, payload).after;
    if q' != q {
      UploadInv(q, role, id, h, offset, payload);
      FilesOf(q);
      FilesOf(q');
      UploadChanges(q, role, id, h, offset, payload);
      AppendAgain(q, h, payload);
      hide FilesTracked, Appended;
      if h in q'.chunks || Part(q, h) != [] || Part(q', h) != [] {
        RefreshedSame(q', h);
        OpenPart(q', h);
        UploadMoved(q', role, id, h, offset, payload);
      }
    }
  }

  /** The one way a packet changes anything: it continues an unfinished block where its partial file ends. */
  lemma UploadChanges(q: Queue, role: Device, id: JobId, h: Hash, offset: Option<nat>, payload: Bytes)
    requires FilesTracked(q.objects, q.chunks, q.uploads)
    requires Upload(q, role, id, h, offset, payload).Done? && Upload(q, role, id, h, offset, payload).after != q
    ensures id in q.jobs && q.jobs[id].manifest.origin == role && q.jobs[id].state != DELIVERED && h in q.jobs[id].needs
    ensures h in q.objects && h !in q.chunks && offset == Some(|Part(q, h)|) && payload != []
    ensures |Part(q, h)| + |payload| <= q.objects[h].size && |payload| <= PACKET
    ensures Upload(q, role, id, h, offset, payload).after == Appended(q, h, payload).0
  {
    hide FilesTracked, Appended;
    RefreshedSame(q, h);
    OpenPart(q, h);
    hide Offset, Refreshed;
  }

  /** A packet for any other place than the end of the partial file changes nothing. */
  lemma UploadMoved(q: Queue, role: Device, id: JobId, h: Hash, offset: Option<nat>, payload: Bytes)
    requires id in q.jobs && q.jobs[id].manifest.origin == role && q.jobs[id].state != DELIVERED
    requires h in q.jobs[id].needs && FilesTracked(q.objects, q.chunks, q.uploads) && h in q.objects
    requires payload == [] || offset != Offset(q, h, q.objects[h].size)
    ensures Upload(q, role, id, h, offset, payload).Done? && Upload(q, role, id, h, offset, payload).after == q
  {
    hide FilesTracked;
    RefreshedSame(q, h);
    hide Offset, Refreshed;
  }

  lemma Thrown(q: Queue, h: Hash, payload: Bytes)
    requires h in q.objects && Part(q, h) == [] && |payload| == q.objects[h].size && Sha256(payload) != h
    ensures Appended(q, h, payload).0
         == q.(uploads := q.uploads - {h}, objects := q.objects[h := Object(q.objects[h].size, false, 0)])
  {
    assert [] + payload == payload;
  }

  lemma Emptied(q: Queue, h: Hash, payload: Bytes)
    requires h in q.objects && h !in q.chunks && payload != [] && Part(q, h) == []
    requires var q' := Appended(q, h, payload).0; h !in q'.chunks && Part(q', h) == []
    ensures |payload| == q.objects[h].size && Sha256(payload) != h
  {
    assert [] + payload == payload;
  }

  /** A packet that is a whole wrong block is thrown away again. */
  lemma ThrownAgain(q: Queue, h: Hash, payload: Bytes)
    requires h in q.objects && h !in q.chunks && payload != [] && Part(q, h) == []
    requires var q' := Appended(q, h, payload).0; h !in q'.chunks && Part(q', h) == []
    ensures var q' := Appended(q, h, payload).0; h in q'.objects && Appended(q', h, payload).0 == q'
  {
    hide Appended, Part;
    Emptied(q, h, payload);
    Thrown(q, h, payload);
    var q' := Appended(q, h, payload).0;
    Thrown(q', h, payload);
    assert q'.uploads - {h} == q'.uploads;
    assert q'.objects[h := q'.objects[h]] == q'.objects;
  }

  lemma AppendAgain(q: Queue, h: Hash, payload: Bytes)
    requires FilesTracked(q.objects, q.chunks, q.uploads) && h in q.objects && h !in q.chunks && payload != []
    requires |Part(q, h)| + |payload| <= q.objects[h].size
    ensures var q' := Appended(q, h, payload).0;
      && q'.jobs == q.jobs && h in q'.objects && q'.objects[h].size == q.objects[h].size
      && (h in q'.chunks ==> |Part(q, h)| < q.objects[h].size)
      && (h !in q'.chunks ==> |Part(q', h)| == |Part(q, h)| + |payload| || Part(q', h) == [])
      && (h !in q'.chunks && Part(q', h) == [] && Part(q, h) == [] ==> Appended(q', h, payload).0 == q')
  {
    hide FilesTracked;
    AppendedPart(q, h, payload);
    var q' := Appended(q, h, payload).0;
    hide Appended;
    if Part(q', h) == [] && h !in q'.chunks && Part(q, h) == [] {
      ThrownAgain(q, h, payload);
    }
  }

  lemma AppendedPart(q: Queue, h: Hash, payload: Bytes)
    requires h in q.objects && h !in q.chunks
    ensures var q' := Appended(q, h, payload).0;
      && q'.jobs == q.jobs && h in q'.objects && q'.objects[h].size == q.objects[h].size
      && (h !in q'.chunks ==> |Part(q', h)| == |Part(q, h)| + |payload| || Part(q', h) == [])
  {
    var part := Part(q, h) + payload;
    hide Part;
    if |part| != q.objects[h].size {
      PartIs(Appended(q, h, payload).0, h);
    } else if Sha256(part) != h {
      NoPart(Appended(q, h, payload).0, h);
    }
  }

  lemma PartIs(q: Queue, h: Hash)
    requires h in q.uploads
    ensures Part(q, h) == q.uploads[h]
  {
  }

  lemma NoPart(q: Queue, h: Hash)
    requires h !in q.uploads
    ensures Part(q, h) == []
  {
  }

  lemma FilesOf(q: Queue)
    requires Inv(q)
    ensures FilesTracked(q.objects, q.chunks, q.uploads)
  {
  }

  lemma CommitAgain(q: Queue, role: Device, id: JobId)
    requires Commit(q, role, id).Done?
    ensures Commit(Commit(q, role, id).after, role, id) == Commit(q, role, id)
  {
  }

  lemma {:induction false} StockedAgain(inventory: map<(Device, Hash), nat>, d: Device, chunks: seq<Chunk>)
    requires forall h | h in Sizes(chunks) :: (d, h) in inventory
    ensures Stocked(inventory, d, chunks) == inventory
  {
    if chunks != [] {
      var last := |chunks| - 1;
      forall h | h in Sizes(chunks[..last])
        ensures (d, h) in inventory
      {
        assert h in Sizes(chunks);
      }
      StockedAgain(inventory, d, chunks[..last]);
      assert chunks[last].hash in Sizes(chunks);
    }
  }

  lemma ReceiptAgain(q: Queue, role: Device, id: JobId)
    requires id in q.jobs
    ensures var q' := Receipted(q, role, id); Receipted(q', role, id) == q'
  {
    var q' := Receipted(q, role, id);
    StockedKeys(q.inventory, role, q.jobs[id].manifest.chunks);
    StockedAgain(q'.inventory, role, q.jobs[id].manifest.chunks);
    assert q'.jobs[id].receipts + {role} == q'.jobs[id].receipts;
    assert q'.jobs[id := q'.jobs[id]] == q'.jobs;
  }

  lemma CollectAgain(q: Queue)
    ensures Gc(Gc(q)) == Gc(q)
    ensures Garbage(Gc(q)) == {}
  {
    assert forall h :: Obsolete(Gc(q), h) <==> Obsolete(q, h);
    assert Garbage(Gc(q)) == {};
  }

  /** A second acknowledgement, collection included, changes nothing, also after a late subscriber reopened the job. */
  lemma AcknowledgeAgain(q: Queue, role: Device, id: JobId, digest: Digest)
    requires Acknowledge(q, role, id, digest).Done?
    ensures Acknowledge(Acknowledge(q, role, id, digest).after, role, id, digest) == Acknowledge(q, role, id, digest)
  {
    var r := Receipted(q, role, id);
    ReceiptAgain(q, role, id);
    CollectAgain(r);
    var g := Gc(r);
    assert Receipted(g, role, id) == Receipted(r, role, id).(objects := g.objects, chunks := g.chunks, uploads := g.uploads);
    assert Receipted(g, role, id) == g;
  }

  // ---------------------------------------------------------------- space is given back

  predicate OnBroker(q: Queue, h: Hash) {
    h in q.objects || h in q.chunks || h in q.uploads
  }

  lemma KeptIsWanted(q: Queue, h: Hash)
    requires FilesTracked(q.objects, q.chunks, q.uploads)
    ensures OnBroker(Gc(q), h) <==> OnBroker(q, h) && !Obsolete(q, h)
  {
  }

  lemma LastReceipt(q: Queue, role: Device, id: JobId, h: Hash)
    requires id in q.jobs && |q.jobs[id].recipients| >= 2 && q.jobs[id].recipients <= q.jobs[id].receipts + {role}
    requires forall j | j in q.jobs && j != id && h in q.jobs[j].blocks :: q.jobs[j].state == DELIVERED
    ensures Receipted(q, role, id).jobs[id].state == DELIVERED && Obsolete(Receipted(q, role, id), h)
  {
    hide Stocked;
  }

  /** What the broker keeps after an acknowledgement belongs to versions still to be delivered; and the acknowledgement of
      the last of at least two recipients frees every block that no other such version refers to. */
  lemma LastReceiptFrees(q: Queue, role: Device, id: JobId, digest: Digest, h: Hash)
    requires Inv(q) && Acknowledge(q, role, id, digest).Done?
    ensures var q' := Acknowledge(q, role, id, digest).after;
      OnBroker(q', h) ==> exists j :: j in q'.jobs && h in q'.jobs[j].blocks && q'.jobs[j].state != DELIVERED
    ensures var q' := Acknowledge(q, role, id, digest).after;
      && |q.jobs[id].recipients| >= 2 && q.jobs[id].recipients <= q.jobs[id].receipts + {role}
      && (forall j | j in q.jobs && j != id && h in q.jobs[j].blocks :: q.jobs[j].state == DELIVERED)
      ==> q'.jobs[id].state == DELIVERED && !OnBroker(q', h)
  {
    hide Inv, Receipted, OnBroker, FilesTracked;
    var r := Receipted(q, role, id);
    ReceiptedInv(q, role, id);
    FilesOf(r);
    KeptIsWanted(r, h);
    if |q.jobs[id].recipients| >= 2 && q.jobs[id].recipients <= q.jobs[id].receipts + {role}
       && (forall j | j in q.jobs && j != id && h in q.jobs[j].blocks :: q.jobs[j].state == DELIVERED) {
      LastReceipt(q, role, id, h);
    }
  }
}
