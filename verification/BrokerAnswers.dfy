/** What each request answers and changes, said of rows and files alone. */
module BrokerAnswers {
  import opened Base
  import opened BrokerState
  import opened BrokerInvariants
  import opened BrokerGuarantees

  // ---------------------------------------------------------------- prepare

  lemma {:induction false} SizesLast(chunks: seq<Chunk>, i: nat)
    requires i < |chunks| && forall j | i < j < |chunks| :: chunks[j].hash != chunks[i].hash
    ensures chunks[i].hash in Sizes(chunks) && Sizes(chunks)[chunks[i].hash] == chunks[i].size
  {
    var last := |chunks| - 1;
    if i < last {
      assert chunks[..last][i] == chunks[i];
      SizesLast(chunks[..last], i);
    }
  }

  /** Another device is bound to the dataset, and every other bound device has the block with this size in its inventory. */
  ghost predicate EverybodyHas(q: Queue, ds: Dataset, role: Device, h: Hash, size: nat) {
    && (exists o :: o != role && (ds, o) in q.bindings)
    && (forall o | o != role && (ds, o) in q.bindings :: (o, h) in q.inventory && q.inventory[(o, h)] == size)
  }

  /** A new version asks for exactly those of its blocks that not every other bound device has. */
  lemma PlanExactly(q: Queue, role: Device, m: Manifest, i: nat)
    requires Prepare(q, role, m).Done? && m.id !in q.jobs
    requires i < |m.chunks| && forall j | i < j < |m.chunks| :: m.chunks[j].hash != m.chunks[i].hash
    ensures var plan := Prepare(q, role, m).reply; var h := m.chunks[i].hash;
      && plan.state == STAGING
      && (h in plan.needed <==> !EverybodyHas(q, m.key.dataset, role, h, m.chunks[i].size))
      && (h in plan.needed ==> plan.needed[h] == if h in q.objects then q.objects[h] else Object(m.chunks[i].size, false, 0))
  {
    hide Prepare, Sizes, Total, Others, Staged, PlanFor, EverybodyHas, HeldByAll;
    SizesLast(m.chunks, i);
    NewDone(q, role, m);
    StagedPlan(q, role, m, m.chunks[i].hash);
    HeldIs(q, m.key.dataset, role, m.chunks[i].hash, m.chunks[i].size);
  }

  lemma StagedPlan(q: Queue, role: Device, m: Manifest, h: Hash)
    requires h in Sizes(m.chunks)
    ensures var plan := PlanFor(Staged(q, role, m), m.id); var size := Sizes(m.chunks)[h];
      && plan.state == STAGING
      && (h in plan.needed <==> !HeldByAll(q, Others(q, m.key.dataset, role), h, size))
      && (h in plan.needed ==> plan.needed[h] == if h in q.objects then q.objects[h] else Object(size, false, 0))
  {
    hide Sizes, HeldByAll, Others;
  }

  lemma HeldIs(q: Queue, ds: Dataset, role: Device, h: Hash, size: nat)
    ensures HeldByAll(q, Others(q, ds, role), h, size) <==> EverybodyHas(q, ds, role, h, size)
  {
    OthersAre(q, ds, role);
    hide Others;
    if EverybodyHas(q, ds, role, h, size) {
      var o :| o != role && (ds, o) in q.bindings;
      assert o in Others(q, ds, role);
    }
    if HeldByAll(q, Others(q, ds, role), h, size) {
      var o :| o in Others(q, ds, role);
      assert o != role && (ds, o) in q.bindings;
    }
  }

  lemma NewDone(q: Queue, role: Device, m: Manifest)
    requires Prepare(q, role, m).Done? && m.id !in q.jobs
    ensures Prepare(q, role, m) == Done(Staged(q, role, m), PlanFor(Staged(q, role, m), m.id))
  {
    hide Total, Staged, PlanFor, Sizes, Needed;
  }

  lemma OthersAre(q: Queue, ds: Dataset, role: Device)
    ensures forall o :: o in Others(q, ds, role) <==> o != role && (ds, o) in q.bindings
  {
    forall o | o != role && (ds, o) in q.bindings
      ensures o in Others(q, ds, role)
    {
      assert (ds, o).0 == ds && (ds, o).1 == o;
    }
  }

  // ---------------------------------------------------------------- a commit delivers to everybody bound before

  ghost predicate InventoryKept(q: Queue, q': Queue) {
    forall e, h :: (e, h) in q.inventory ==> (e, h) in q'.inventory
  }

  /** Inventories only grow. */
  lemma HandleInventory(q: Queue, role: Device, r: Request)
    requires Inv(q)
    ensures InventoryKept(q, Handle(q, role, r))
  {
    hide Inv, Stocked, Prepare, Upload, Commit, Upgrade, RepairPrepare, Garbage;
    match r
    case PrepareRequest(m) => PrepareAside(q, role, m);
    case PutRequest(id, h, offset, payload) => UploadAside(q, role, id, h, offset, payload);
    case CommitRequest(id) => CommitAside(q, role, id);
    case ReceiptRequest(id, digest) => if id in q.jobs { StockedKeys(q.inventory, role, q.jobs[id].manifest.chunks); }
    case UpgradeRequest => UpgradeSame(q);
    case RepairRequest(id) => RepairAside(q, role, id);
    case _ =>
  }

  lemma CommitAside(q: Queue, role: Device, id: JobId)
    ensures var q' := After(q, Commit(q, role, id));
      && InventoryKept(q, q') && q'.jobs.Keys == q.jobs.Keys
      && forall a | a in q.jobs :: q'.jobs[a] == q.jobs[a] || q'.jobs[a].state == READY
  {
    if id in q.jobs { StockedKeys(q.inventory, q.jobs[id].manifest.origin, q.jobs[id].manifest.chunks); }
    hide Stocked, Uploaded, Tracked;
  }

  lemma PrepareAside(q: Queue, role: Device, m: Manifest)
    ensures After(q, Prepare(q, role, m)).inventory == q.inventory
    ensures forall id | id in q.jobs :: id in After(q, Prepare(q, role, m)).jobs && After(q, Prepare(q, role, m)).jobs[id] == q.jobs[id]
  {
    hide Total, Allocated, Absent, Needed, Sizes, NewObjects, Others, ValidManifest, PlanFor;
  }

  lemma UploadAside(q: Queue, role: Device, id: JobId, h: Hash, offset: Option<nat>, payload: Bytes)
    ensures var q' := After(q, Upload(q, role, id, h, offset, payload)); q'.inventory == q.inventory && q'.jobs == q.jobs
  {
    hide Offset, Appended;
    if h in q.objects { AppendedAside(q, h, payload); }
  }

  lemma AppendedAside(q: Queue, h: Hash, payload: Bytes)
    requires h in q.objects
    ensures var q' := Appended(q, h, payload).0; q'.inventory == q.inventory && q'.jobs == q.jobs
  {
    hide Part;
  }

  lemma RepairAside(q: Queue, role: Device, id: JobId)
    ensures var q' := After(q, RepairPrepare(q, role, id));
      && q'.inventory == q.inventory && q'.jobs.Keys == q.jobs.Keys
      && forall a | a in q.jobs :: q'.jobs[a] == q.jobs[a] || q.jobs[a].state == READY == q'.jobs[a].state
  {
    hide Total, Allocated, Absent, Missing, NewObjects, PlanFor;
  }

  /** A staged version is told once what it needs. */
  ghost predicate SameStaged(q: Queue, q': Queue, id: JobId) {
    id in q'.jobs && (q'.jobs[id].state == STAGING ==>
      id in q.jobs && q.jobs[id].state == STAGING && q'.jobs[id].needs == q.jobs[id].needs
      && q'.jobs[id].blocks == q.jobs[id].blocks && q'.jobs[id].manifest == q.jobs[id].manifest)
  }

  lemma HandleStaged(q: Queue, role: Device, r: Request, id: JobId)
    requires Inv(q) && id in q.jobs
    ensures SameStaged(q, Handle(q, role, r), id)
  {
    hide Inv, Stocked, Prepare, Upload, Commit, Upgrade, RepairPrepare, Garbage;
    match r
    case PrepareRequest(m) => PrepareAside(q, role, m);
    case PutRequest(a, h, offset, payload) => UploadAside(q, role, a, h, offset, payload);
    case UpgradeRequest => UpgradeSame(q);
    case CommitRequest(a) => CommitAside(q, role, a);
    case RepairRequest(a) => RepairAside(q, role, a);
    case _ =>
  }

  lemma {:induction false} ServeStaged(q: Queue, requests: seq<(Device, Request)>, id: JobId)
    requires Inv(q) && id in q.jobs
    ensures var q' := Serve(q, requests); Inv(q') && InventoryKept(q, q') && SameStaged(q, q', id)
    decreases |requests|
  {
    hide Inv, Handle;
    if requests != [] {
      var r := Handle(q, requests[0].0, requests[0].1);
      HandleInv(q, requests[0].0, requests[0].1);
      HandleInventory(q, requests[0].0, requests[0].1);
      HandleStaged(q, requests[0].0, requests[0].1, id);
      ServeStaged(r, requests[1..], id);
    }
  }

  /** A whole upload is a verified file for each needed block. */
  lemma UploadedFiles(q: Queue, id: JobId)
    requires Inv(q) && id in q.jobs && q.jobs[id].state == STAGING
    ensures Uploaded(q, id) <==> forall h | h in q.jobs[id].needs :: h in q.chunks
  {
    FilesOf(q);
    assert StagedTracked(q.jobs, q.objects);
    hide Inv;
    forall h | h in q.jobs[id].needs
      ensures h in q.objects && (Offset(q, h, q.objects[h].size) == Some(q.objects[h].size) <==> h in q.chunks)
    {
      RefreshedSame(q, h);
    }
    hide FilesTracked, Offset, StagedTracked;
  }

  /** Whatever was requested since it was prepared, a version that is committed has each of its blocks where every device
      bound back then can get it: in that device's inventory or served, no repair needed. */
  lemma CommitDelivers(q: Queue, role: Device, m: Manifest, requests: seq<(Device, Request)>, d: Device, i: nat)
    requires Inv(q) && Prepare(q, role, m).Done? && m.id !in q.jobs && (m.key.dataset, d) in q.bindings
    requires i < |m.chunks| && forall j | i < j < |m.chunks| :: m.chunks[j].hash != m.chunks[i].hash
    requires var p := Serve(Prepare(q, role, m).after, requests);
      m.id in p.jobs && p.jobs[m.id].state == STAGING && Commit(p, role, m.id).Done?
    ensures var e := Commit(Serve(Prepare(q, role, m).after, requests), role, m.id).after; var h := m.chunks[i].hash;
      (d, h) in e.inventory || (Served(e, m.id, h) && Sha256(e.chunks[h]) == h)
  {
    hide Inv, Prepare, Serve, Commit, Uploaded, Sizes, Published;
    var q1 := Prepare(q, role, m).after;
    var p := Serve(q1, requests);
    var h := m.chunks[i].hash;
    PrepareInv(q, role, m);
    PreparedNew(q, role, m);
    ServeStaged(q1, requests, m.id);
    assert p.jobs[m.id].needs == q1.jobs[m.id].needs;
    PlanExactly(q, role, m, i);
    CommitNew(p, role, m.id);
    UploadedFiles(p, m.id);
    SizesLast(m.chunks, i);
    PublishedFacts(p, m.id, m.chunks, i);
    ChunkTrue(p, h);
    if d != role && h !in q1.jobs[m.id].needs {
      assert EverybodyHas(q, m.key.dataset, role, h, m.chunks[i].size);
      assert (d, h) in p.inventory;
    }
  }

  lemma ChunkTrue(q: Queue, h: Hash)
    requires Inv(q)
    ensures h in q.chunks ==> Sha256(q.chunks[h]) == h
  {
    FilesOf(q);
    hide Inv;
  }

  lemma PreparedNew(q: Queue, role: Device, m: Manifest)
    requires Prepare(q, role, m).Done? && m.id !in q.jobs
    ensures var p := Prepare(q, role, m); var j := p.after.jobs;
      && m.id in j && j[m.id].state == STAGING && j[m.id].manifest == m && j[m.id].blocks == Sizes(m.chunks) && m.origin == role
      && p.after.inventory == q.inventory && p.reply.needed.Keys <= j[m.id].needs
  {
    hide Total, Allocated, Absent, Needed, Sizes, NewObjects, Others, ValidManifest;
  }

  lemma CommitNew(q: Queue, role: Device, id: JobId)
    requires id in q.jobs && q.jobs[id].state == STAGING && Commit(q, role, id).Done?
    ensures Uploaded(q, id) && Commit(q, role, id).after == Published(q, id)
  {
    hide Uploaded, Published;
  }

  lemma PublishedFacts(q: Queue, id: JobId, chunks: seq<Chunk>, i: nat)
    requires id in q.jobs && q.jobs[id].manifest.chunks == chunks && i < |chunks|
    ensures var e := Published(q, id);
      && InventoryKept(q, e) && (q.jobs[id].manifest.origin, chunks[i].hash) in e.inventory && e.chunks == q.chunks
      && id in e.jobs && e.jobs[id].state == READY && e.jobs[id].blocks == q.jobs[id].blocks
  {
    StockedKeys(q.inventory, q.jobs[id].manifest.origin, chunks);
    SizesKeys(chunks);
    hide Stocked, Tracked;
  }

  // ---------------------------------------------------------------- the other answers

  /** A new version is admitted exactly when it is well-formed, the sender's own, of a known group, on the file's head, in
      agreement with recorded sizes, and leaves what is allocated within the quota. */
  lemma AdmittedExactly(q: Queue, role: Device, m: Manifest)
    requires m.id !in q.jobs
    ensures Prepare(q, role, m).Done?
       <==> && ValidManifest(m) && m.origin == role && m.key.dataset in q.datasets
            && (if m.key in q.heads then m.parent == Some(q.heads[m.key]) else m.parent == None)
            && (forall i | 0 <= i < |m.chunks| && m.chunks[i].hash in q.objects && (forall j | i < j < |m.chunks| :: m.chunks[j].hash != m.chunks[i].hash) ::
                  q.objects[m.chunks[i].hash].size == m.chunks[i].size)
            && Allocated(Staged(q, role, m).objects) <= q.quota
  {
    hide ValidManifest, Total, Needed, Allocated, Sizes, PlanFor;
    StagedAllocates(q, role, m);
    SizesAgree(m.chunks, q.objects);
    hide Staged;
  }

  lemma StagedAllocates(q: Queue, role: Device, m: Manifest)
    ensures Allocated(Staged(q, role, m).objects) == Allocated(q.objects) + Total(Absent(Needed(q, role, m), q.objects))
  {
    hide Total, Needed, Allocated, NewObjects, Sizes;
    NewObjectsAllocated(q.objects, Absent(Needed(q, role, m), q.objects));
  }

  lemma SizesAgree(chunks: seq<Chunk>, objects: map<Hash, Object>)
    ensures (exists h | h in Sizes(chunks) :: h in objects && objects[h].size != Sizes(chunks)[h])
       <==> exists i | 0 <= i < |chunks| && chunks[i].hash in objects && (forall j | i < j < |chunks| :: chunks[j].hash != chunks[i].hash) ::
              objects[chunks[i].hash].size != chunks[i].size
  {
    if h :| h in Sizes(chunks) && h in objects && objects[h].size != Sizes(chunks)[h] {
      var i := LastOf(chunks, h);
      SizesLast(chunks, i);
    }
    if i: int :| 0 <= i < |chunks| && chunks[i].hash in objects && (forall j | i < j < |chunks| :: chunks[j].hash != chunks[i].hash)
                 && objects[chunks[i].hash].size != chunks[i].size {
      SizesLast(chunks, i);
    }
  }

  lemma {:induction false} LastOf(chunks: seq<Chunk>, h: Hash) returns (i: nat)
    requires h in Sizes(chunks)
    ensures i < |chunks| && chunks[i].hash == h && forall j | i < j < |chunks| :: chunks[j].hash != h
  {
    var last := |chunks| - 1;
    if chunks[last].hash == h {
      i := last;
    } else {
      i := LastOf(chunks[..last], h);
      assert chunks[..last][i] == chunks[i];
      assert forall j | i < j < last :: chunks[..last][j] == chunks[j];
    }
  }

  /** How much of a block is on disk: all of it once it is published, else its partial file. */
  function OnDisk(q: Queue, h: Hash): nat {
    if h in q.chunks then |q.chunks[h]| else if h in q.uploads then |q.uploads[h]| else 0
  }

  /** A packet is looked at for a block that the sender's own undelivered version needs. Without bytes, or at another offset,
      it is told how much is there; otherwise it must fit the block and one packet. */
  lemma PutExactly(q: Queue, role: Device, id: JobId, h: Hash, offset: Option<nat>, payload: Bytes)
    requires Inv(q)
    ensures var o := Upload(q, role, id, h, offset, payload); var at := OnDisk(q, h);
      && (o.Done? <==>
            && id in q.jobs && q.jobs[id].manifest.origin == role && q.jobs[id].state != DELIVERED && h in q.jobs[id].needs && h in q.objects
            && (payload == [] || offset != Some(at) || (at + |payload| <= q.objects[h].size && |payload| <= 128 * 1024)))
      && (o.Done? && (payload == [] || offset != Some(at)) ==> o.after == q && o.reply == Ack(at, at == q.objects[h].size, payload != [], false))
  {
    FilesOf(q);
    hide Inv;
    hide FilesTracked, Offset, Refreshed, Appended;
    if h in q.objects {
      RefreshedSame(q, h);
      AtDisk(q, h);
    }
  }

  /** A packet at the right offset lengthens the partial file, publishes the block if that makes it whole and right, and has
      it thrown away if it makes it whole and wrong. */
  lemma PacketExactly(q: Queue, role: Device, id: JobId, h: Hash, payload: Bytes)
    requires Inv(q) && payload != [] && Upload(q, role, id, h, Some(OnDisk(q, h)), payload).Done?
    ensures var o := Upload(q, role, id, h, Some(OnDisk(q, h)), payload); var whole := (if h in q.uploads then q.uploads[h] else []) + payload;
      && h in q.objects && h !in q.chunks && |whole| <= q.objects[h].size
      && (|whole| < q.objects[h].size ==> h in o.after.uploads && o.after.uploads[h] == whole && o.reply == Ack(|whole|, false, false, false))
      && (|whole| == q.objects[h].size && Sha256(whole) == h ==>
            h in o.after.chunks && o.after.chunks[h] == whole && h !in o.after.uploads && o.reply == Ack(|whole|, true, false, false))
      && (|whole| == q.objects[h].size && Sha256(whole) != h ==>
            h !in o.after.chunks && h !in o.after.uploads && o.reply == Ack(0, false, true, true))
  {
    FilesOf(q);
    hide Inv;
    hide FilesTracked, Offset, Refreshed, Appended;
    AtDisk(q, h);
    if h !in q.chunks { AppendedIs(q, h, payload); }
  }

  lemma AppendedIs(q: Queue, h: Hash, payload: Bytes)
    requires h in q.objects && h !in q.chunks
    ensures var (e, ack) := Appended(q, h, payload); var whole := (if h in q.uploads then q.uploads[h] else []) + payload;
      && (|whole| < q.objects[h].size ==> h in e.uploads && e.uploads[h] == whole && ack == Ack(|whole|, false, false, false))
      && (|whole| == q.objects[h].size && Sha256(whole) == h ==>
            h in e.chunks && e.chunks[h] == whole && h !in e.uploads && ack == Ack(|whole|, true, false, false))
      && (|whole| == q.objects[h].size && Sha256(whole) != h ==> h !in e.chunks && h !in e.uploads && ack == Ack(0, false, true, true))
  {
  }

  lemma AtDisk(q: Queue, h: Hash)
    requires FilesTracked(q.objects, q.chunks, q.uploads) && h in q.objects
    ensures Offset(q, h, q.objects[h].size) == Some(OnDisk(q, h)) && OnDisk(q, h) <= q.objects[h].size
    ensures h in q.chunks ==> OnDisk(q, h) == q.objects[h].size && h !in q.uploads
  {
  }

  /** A version is committed by its source when it was before, or when its parent is the file's head and every block it
      needs is on disk; it then is the head, with the source's receipt and its blocks in the source's inventory. */
  lemma CommitExactly(q: Queue, role: Device, id: JobId)
    requires Inv(q)
    ensures var o := Commit(q, role, id);
      && (o.Done? <==>
            && id in q.jobs && q.jobs[id].manifest.origin == role
            && (|| q.jobs[id].state != STAGING
                || (&& (var m := q.jobs[id].manifest; if m.key in q.heads then m.parent == Some(q.heads[m.key]) else m.parent == None)
                    && forall h | h in q.jobs[id].needs :: h in q.chunks)))
      && (o.Done? && q.jobs[id].state != STAGING ==> o.after == q)
      && (o.Done? && q.jobs[id].state == STAGING ==>
            var m := q.jobs[id].manifest;
            && o.after.jobs == q.jobs[id := q.jobs[id].(state := READY, receipts := q.jobs[id].receipts + {role})]
            && o.after.heads == q.heads[m.key := id] && o.after.chunks == q.chunks && InventoryKept(q, o.after)
            && forall i | 0 <= i < |m.chunks| :: (role, m.chunks[i].hash) in o.after.inventory)
  {
    hide Inv, Uploaded, Published;
    if id in q.jobs && q.jobs[id].state == STAGING {
      UploadedFiles(q, id);
      CommitChanges(q, id);
    }
  }

  lemma CommitChanges(q: Queue, id: JobId)
    requires id in q.jobs
    ensures var m := q.jobs[id].manifest; var e := Published(q, id);
      && e.jobs == q.jobs[id := q.jobs[id].(state := READY, receipts := q.jobs[id].receipts + {m.origin})]
      && e.heads == q.heads[m.key := id] && e.chunks == q.chunks && InventoryKept(q, e)
      && forall i | 0 <= i < |m.chunks| :: (m.origin, m.chunks[i].hash) in e.inventory
  {
    var m := q.jobs[id].manifest;
    StockedKeys(q.inventory, m.origin, m.chunks);
    SizesKeys(m.chunks);
    hide Stocked, Tracked, Sizes;
  }

  /** A receipt is taken for a committed version and its digest. The version is delivered once all of at least two
      recipients have sent theirs, and never sooner. */
  lemma ReceiptExactly(q: Queue, role: Device, id: JobId, digest: Digest)
    ensures var o := Receipt(q, role, id, digest);
      && (o.Done? <==> id in q.jobs && q.jobs[id].state != STAGING && digest == ManifestHash(q.jobs[id].manifest))
      && (o.Done? ==>
            var m := q.jobs[id].manifest; var r := q.jobs[id].receipts + {role};
            && id in o.after.jobs && o.after.jobs[id].receipts == r && o.after.jobs[id].recipients == q.jobs[id].recipients
            && (o.after.jobs[id].state == DELIVERED <==>
                  q.jobs[id].state == DELIVERED || (|q.jobs[id].recipients| >= 2 && forall d | d in q.jobs[id].recipients :: d in r))
            && o.after.heads == q.heads && o.after.chunks == q.chunks && InventoryKept(q, o.after)
            && forall i | 0 <= i < |m.chunks| :: (role, m.chunks[i].hash) in o.after.inventory)
  {
    if id in q.jobs {
      StockedKeys(q.inventory, role, q.jobs[id].manifest.chunks);
      SizesKeys(q.jobs[id].manifest.chunks);
    }
    hide Stocked, Sizes;
  }

  /** A collection deletes exactly the blocks with a row that no undelivered version refers to. */
  lemma CollectExactly(q: Queue, h: Hash)
    ensures var e := Gc(q); var wanted := exists id | id in q.jobs && h in q.jobs[id].blocks :: q.jobs[id].state != DELIVERED;
      && (h in e.objects <==> h in q.objects && wanted)
      && (h in e.chunks <==> h in q.chunks && (h in q.objects ==> wanted))
      && e.jobs == q.jobs && e.inventory == q.inventory && e.heads == q.heads
  {
  }

  /** A block of a READY version that is on disk is handed out from any offset within it, a packet at a time. */
  lemma GetExactly(q: Queue, id: JobId, h: Hash, offset: nat)
    ensures var o := Get(q, id, h, offset);
      && (o.Done? <==> id in q.jobs && q.jobs[id].state == READY && h in q.jobs[id].blocks && h in q.chunks && offset <= |q.chunks[h]|)
      && (o.Done? ==> o.after == q && offset + |o.reply| <= |q.chunks[h]| && o.reply == q.chunks[h][offset..offset + |o.reply|]
                      && |o.reply| == Min(128 * 1024, |q.chunks[h]| - offset))
  {
  }

  /** Some other recipient has neither acknowledged the version nor declared the block. */
  ghost predicate SomebodyLacks(q: Queue, id: JobId, h: Hash)
    requires id in q.jobs
  {
    exists t :: t in q.jobs[id].recipients && t != q.jobs[id].manifest.origin && t !in q.jobs[id].receipts && (t, h) !in q.inventory
  }

  /** A repair of the source's READY version is accepted within the quota, and asks for a block exactly when it was needed
      before or is one of the version's that somebody lacks. */
  lemma RepairExactly(q: Queue, role: Device, id: JobId, h: Hash)
    ensures var o := RepairPrepare(q, role, id);
      && (o.Done? <==> && id in q.jobs && q.jobs[id].manifest.origin == role && q.jobs[id].state == READY
                       && Allocated(Restaged(q, id).objects) <= q.quota)
      && (o.Done? ==>
            && o.reply.state == STAGING && o.after.jobs[id].state == READY
            && (h in o.reply.needed <==> (h in q.jobs[id].needs && h in q.objects) || (h in q.jobs[id].blocks && SomebodyLacks(q, id, h))))
  {
    hide Total, Allocated, NewObjects;
    if id in q.jobs {
      RestagedAllocates(q, id);
      MissingIs(q, id, h);
      RestagedPlan(q, id, h);
    }
    hide Missing, Restaged, PlanFor;
  }

  lemma MissingIs(q: Queue, id: JobId, h: Hash)
    requires id in q.jobs
    ensures h in Missing(q, q.jobs[id]) <==> h in q.jobs[id].blocks && SomebodyLacks(q, id, h)
  {
  }

  lemma RestagedAllocates(q: Queue, id: JobId)
    requires id in q.jobs
    ensures Allocated(Restaged(q, id).objects) == Allocated(q.objects) + Total(Absent(Missing(q, q.jobs[id]), q.objects))
  {
    hide Total, Allocated, NewObjects, Missing;
    NewObjectsAllocated(q.objects, Absent(Missing(q, q.jobs[id]), q.objects));
  }

  lemma RestagedPlan(q: Queue, id: JobId, h: Hash)
    requires id in q.jobs
    ensures var e := Restaged(q, id);
      && e.jobs[id].state == q.jobs[id].state
      && (h in PlanFor(e, id).needed <==> (h in q.jobs[id].needs && h in q.objects) || h in Missing(q, q.jobs[id]))
  {
    hide Missing;
  }

  /** A source is asked to repair exactly its READY versions with a block that is not complete and that somebody lacks. */
  lemma RepairsExactly(q: Queue, role: Device, ds: Dataset, id: JobId)
    ensures id in Repairs(q, role, ds)
       <==> && id in q.jobs && q.jobs[id].manifest.key.dataset == ds && q.jobs[id].manifest.origin == role && q.jobs[id].state == READY
            && exists h | h in q.jobs[id].blocks :: (h in q.objects ==> !q.objects[h].complete) && SomebodyLacks(q, id, h)
  {
    hide Missing;
    if id in q.jobs {
      assert forall h :: Wanted(q, q.jobs[id], h) <==> SomebodyLacks(q, id, h);
    }
    hide SomebodyLacks, Wanted;
  }

  // ---------------------------------------------------------------- groups and bindings

  /** A group is created unless that would be the seventeenth. */
  lemma CreateExactly(q: Queue, ds: Dataset)
    ensures var o := CreateDataset(q, ds);
      && (o.Done? <==> ds in q.datasets || |q.datasets| < 16)
      && (o.Done? ==> o.after.datasets == q.datasets + {ds} && o.after.jobs == q.jobs && o.after.bindings == q.bindings && o.after.heads == q.heads)
  {
  }

  /** A device bound to a group becomes a recipient of all its versions, and one that was delivered to the others is to be
      delivered again unless the device has acknowledged it. */
  lemma BindExactly(q: Queue, role: Device, ds: Dataset)
    ensures var o := Bind(q, role, ds);
      && (o.Done? <==> ds in q.datasets)
      && (o.Done? ==>
            && o.after.bindings == q.bindings + {(ds, role)} && o.after.jobs.Keys == q.jobs.Keys && o.after.heads == q.heads
            && o.after.objects == q.objects && o.after.chunks == q.chunks && o.after.inventory == q.inventory
            && forall id | id in q.jobs :: var a, b := q.jobs[id], o.after.jobs[id];
                 && b.manifest == a.manifest && b.receipts == a.receipts && b.needs == a.needs
                 && b.recipients == (if a.manifest.key.dataset == ds then a.recipients + {role} else a.recipients)
                 && (b.state != a.state <==> a.manifest.key.dataset == ds && a.state == DELIVERED && role !in a.receipts)
                 && (b.state != a.state ==> b.state == READY))
  {
    hide Subscribed;
    if ds in q.datasets {
      forall id | id in q.jobs
        ensures var a, b := q.jobs[id], Bind(q, role, ds).after.jobs[id];
          b == if a.manifest.key.dataset == ds then Subscribed(a, role) else a
      {
      }
      SubscribedAll(q, role);
    }
    hide Bind;
  }

  lemma SubscribedAll(q: Queue, role: Device)
    ensures forall id | id in q.jobs :: var a, b := q.jobs[id], Subscribed(q.jobs[id], role);
      && b.manifest == a.manifest && b.receipts == a.receipts && b.needs == a.needs && b.recipients == a.recipients + {role}
      && (b.state != a.state <==> a.state == DELIVERED && role !in a.receipts) && (b.state != a.state ==> b.state == READY)
  {
  }

  /** Unbinding takes back the binding and nothing that is owed already. */
  lemma UnbindExactly(q: Queue, role: Device, ds: Dataset)
    ensures var o := Unbind(q, role, ds);
      && (o.Done? <==> ds in q.datasets)
      && (o.Done? ==>
            && (forall e, d :: (e, d) in o.after.bindings <==> (e, d) in q.bindings && (e != ds || d != role))
            && o.after.jobs == q.jobs && o.after.objects == q.objects && o.after.chunks == q.chunks)
  {
  }

  // ---------------------------------------------------------------- preparing again, and conflicts

  /** A version prepared before is answered with its state and what is left of its needs, and nothing changes. */
  lemma PlanAgainExactly(q: Queue, role: Device, m: Manifest)
    requires m.id in q.jobs
    ensures var o := Prepare(q, role, m);
      && (o.Done? <==> ValidManifest(m) && m.origin == role && m.key.dataset in q.datasets && q.jobs[m.id].manifest == m)
      && (o.Done? ==>
            && o.after == q && o.reply.state == q.jobs[m.id].state
            && (forall h :: h in o.reply.needed <==> h in q.jobs[m.id].needs && h in q.objects)
            && (forall h | h in o.reply.needed :: o.reply.needed[h] == q.objects[h]))
  {
    hide ValidManifest, Total, Staged, Needed;
  }

  /** A conflict is reported for a new version, or a staged one that is to be committed, exactly when its parent is not the
      head of its file. */
  lemma ConflictExactly(q: Queue, role: Device, m: Manifest)
    ensures Prepare(q, role, m) == Refused(VersionConflict)
       <==> && ValidManifest(m) && m.origin == role && m.key.dataset in q.datasets && m.id !in q.jobs
            && (if m.key in q.heads then m.parent != Some(q.heads[m.key]) else m.parent != None)
    ensures m.id in q.jobs && q.jobs[m.id].manifest == m ==>
              (Commit(q, role, m.id) == Refused(VersionConflict)
               <==> m.origin == role && q.jobs[m.id].state == STAGING && (if m.key in q.heads then m.parent != Some(q.heads[m.key]) else m.parent != None))
  {
    hide ValidManifest, Total, Staged, Needed, PlanFor, Uploaded, Published;
  }
}
