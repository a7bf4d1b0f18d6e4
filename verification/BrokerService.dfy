/** The broker as an object: handlers that update tables and files, each proved to do what its transaction says. */
module BrokerService {
  import opened Base
  import opened BrokerState
  import opened BrokerInvariants

  datatype Reply<+R> = Granted(value: R) | Denied(why: Error)

  /** A handler's answer and new state are those of the transaction; a refusal leaves the state alone. */
  ghost predicate Answers<R>(before: Queue, after: Queue, o: Outcome<R>, r: Reply<R>) {
    match o
    case Done(q, reply) => after == q && r == Granted(reply)
    case Refused(why) => after == before && r == Denied(why)
  }

  /** The sum of a table column. */
  method SumOf(sizes: map<Hash, nat>) returns (sum: nat)
    ensures sum == Total(sizes)
  {
    sum := 0;
    var todo := sizes.Keys;
    ghost var left := sizes;
    while todo != {}
      invariant todo == left.Keys && todo <= sizes.Keys
      invariant forall h | h in left :: left[h] == sizes[h]
      invariant sum + Total(left) == Total(sizes)
    {
      var h :| h in todo;
      TotalRemove(left, h);
      sum := sum + sizes[h];
      todo := todo - {h};
      left := left - {h};
    }
    assert left == map[];
  }

  /** The sizes of a chunk list by hash, later entries replacing earlier ones. */
  method UniqueSizes(list: seq<Chunk>) returns (unique: map<Hash, nat>)
    ensures unique == Sizes(list)
  {
    unique := map[];
    for i := 0 to |list|
      invariant unique == Sizes(list[..i])
    {
      assert list[..i + 1][..i] == list[..i];
      unique := unique[list[i].hash := list[i].size];
    }
    assert list[..|list|] == list;
  }

  class Broker {
    const quota: nat
    var datasets: set<Dataset>
    var bindings: set<(Dataset, Device)>
    var jobs: map<JobId, Job>
    var order: seq<JobId>
    var heads: map<Key, JobId>
    var objects: map<Hash, Object>
    var inventory: map<(Device, Hash), nat>
    var chunks: map<Hash, Bytes>
    var uploads: map<Hash, Bytes>

    ghost function State(): Queue
      reads this
    {
      Queue(quota, datasets, bindings, jobs, order, heads, objects, inventory, chunks, uploads)
    }

    constructor (quota: nat)
      ensures State() == Empty(quota)
    {
      this.quota := quota;
      datasets, bindings, jobs, order, heads := {}, {}, map[], [], map[];
      objects, inventory, chunks, uploads := map[], map[], map[], map[];
    }

    method PlanOf(id: JobId) returns (plan: Plan)
      requires id in jobs
      ensures plan == PlanFor(State(), id)
    {
      plan := Plan(jobs[id].state, map h | h in jobs[id].needs && h in objects :: objects[h]);
    }

    /** Which unique blocks must be uploaded, and how many new bytes that allocates. */
    method Survey(others: set<Device>, unique: map<Hash, nat>) returns (clash: bool, needed: map<Hash, nat>, extra: nat)
      ensures clash <==> exists h | h in unique :: h in objects && objects[h].size != unique[h]
      ensures !clash ==> needed == map h | h in unique && !HeldByAll(State(), others, h, unique[h]) :: unique[h]
      ensures !clash ==> forall h :: h in needed <==>
                h in unique && (others == {} || exists o | o in others :: (o, h) !in inventory || inventory[(o, h)] != unique[h])
      ensures !clash ==> extra == Total(Absent(needed, objects))
    {
      needed, extra := map[], 0;
      var todo := unique.Keys;
      while todo != {}
        invariant todo <= unique.Keys
        invariant forall h | h in unique.Keys - todo :: !(h in objects && objects[h].size != unique[h])
        invariant needed == map h | h in unique.Keys - todo && !HeldByAll(State(), others, h, unique[h]) :: unique[h]
        invariant extra == Total(Absent(needed, objects))
      {
        var h :| h in todo;
        todo := todo - {h};
        if h in objects && objects[h].size != unique[h] {
          return true, map[], 0;
        }
        var available := others != {} && forall o | o in others :: (o, h) in inventory && inventory[(o, h)] == unique[h];
        if !available {
          AbsentMore(needed, objects, h, unique[h]);
          needed := needed[h := unique[h]];
          if h !in objects {
            extra := extra + unique[h];
          }
        }
      }
      clash := false;
      assert unique.Keys - todo == unique.Keys;
    }

    /** Object rows for blocks that have none yet. */
    method InsertObjects(sizes: map<Hash, nat>)
      modifies this`objects
      ensures objects == old(objects) + NewObjects(Absent(sizes, old(objects)))
    {
      ghost var before := objects;
      var todo := sizes.Keys;
      while todo != {}
        invariant todo <= sizes.Keys
        invariant objects.Keys == before.Keys + (sizes.Keys - todo)
        invariant forall h | h in objects :: objects[h] == if h in before then before[h] else Object(sizes[h], false, 0)
      {
        var h :| h in todo;
        if h !in objects {
          objects := objects[h := Object(sizes[h], false, 0)];
        }
        todo := todo - {h};
      }
    }

    /** Whether a new version may be staged: its parent is the head, sizes agree and the quota holds. */
    method Admit(role: Device, m: Manifest) returns (e: Option<Error>, unique: map<Hash, nat>, needed: map<Hash, nat>)
      requires ValidManifest(m) && m.origin == role && m.key.dataset in datasets && m.id !in jobs
      ensures e.None? ==> unique == Sizes(m.chunks) && needed == Needed(State(), role, m)
      ensures BrokerState.Prepare(State(), role, m)
           == if e.Some? then Refused(e.value) else Done(Staged(State(), role, m), PlanFor(Staged(State(), role, m), m.id))
    {
      var head := if m.key in heads then Some(heads[m.key]) else None;
      if head != m.parent {
        ConflictOutcome(State(), role, m);
        return Some(VersionConflict), map[], map[];
      }
      var others := set b | b in bindings && b.0 == m.key.dataset && b.1 != role :: b.1;
      unique := UniqueSizes(m.chunks);
      var clash, wanted, extra := Survey(others, unique);
      var inUse := SumOf(map h | h in objects :: objects[h].size);
      StageOutcome(State(), role, m, unique, others, clash, wanted, extra, inUse);
      hide BrokerState.Prepare, Total, Sizes, Staged, PlanFor;
      needed := wanted;
      e := if clash then Some(SizeClash) else if inUse + extra > quota then Some(OverQuota) else None;
    }

    /** Enters an admitted version into the tables. */
    method Enter(role: Device, m: Manifest, unique: map<Hash, nat>, needed: map<Hash, nat>)
      requires m.id !in jobs && unique == Sizes(m.chunks) && needed == Needed(State(), role, m)
      modifies this
      ensures State() == Staged(old(State()), role, m)
    {
      hide Sizes, Needed, NewObjects, Absent;
      var others := set b | b in bindings && b.0 == m.key.dataset && b.1 != role :: b.1;
      var job := Job(m, |order|, STAGING, unique, needed.Keys, {role} + others, {});
      jobs, order := jobs[m.id := job], order + [m.id];
      InsertObjects(needed);
    }

    method Prepare(role: Device, m: Manifest) returns (r: Reply<Plan>)
      modifies this
      ensures Answers(old(State()), State(), BrokerState.Prepare(old(State()), role, m), r)
    {
      if !ValidManifest(m) { return Denied(BadManifest); }
      if m.origin != role { return Denied(NotOrigin); }
      if m.key.dataset !in datasets { return Denied(UnknownDataset); }
      if m.id in jobs {
        if jobs[m.id].manifest != m { return Denied(IdentifierClash); }
      } else {
        var e, unique, needed := Admit(role, m);
        if e.Some? { return Denied(e.value); }
        Enter(role, m, unique, needed);
      }
      var plan := PlanOf(m.id);
      return Granted(plan);
    }

    // -------------------------------------------------------------- put

    /** How much of a block is on disk, or None when the file there is not the block. */
    method Measure(h: Hash, size: nat) returns (at: Option<nat>)
      ensures at == Offset(State(), h, size)
      ensures h in chunks ==> at == if Sha256(chunks[h]) == h && |chunks[h]| == size then Some(size) else None
      ensures h !in chunks && h in uploads ==> at == if |uploads[h]| <= size then Some(|uploads[h]|) else None
      ensures h !in chunks && h !in uploads ==> at == Some(0)
    {
      if h in chunks {
        if Sha256(chunks[h]) != h || |chunks[h]| != size { return None; }
        return Some(size);
      }
      var length := if h in uploads then |uploads[h]| else 0;
      return if length > size then None else Some(length);
    }

    /** Appends a packet to the partial file; a block that is complete is verified and published, or thrown away. */
    method Append(h: Hash, payload: Bytes) returns (ack: Ack)
      requires h in objects
      modifies this`uploads, this`chunks, this`objects
      ensures (State(), ack) == Appended(old(State()), h, payload)
    {
      var size := objects[h].size;
      var part := (if h in uploads then uploads[h] else []) + payload;
      uploads := uploads[h := part];
      if |part| == size {
        if Sha256(part) != h {
          uploads := uploads - {h};
          objects := objects[h := Object(size, false, 0)];
          assert uploads == old(uploads) - {h};
          return Ack(0, false, true, true);
        }
        chunks, uploads := chunks[h := part], uploads - {h};
        assert uploads == old(uploads) - {h};
      }
      objects := objects[h := Object(size, |part| == size, |part|)];
      return Ack(|part|, |part| == size, false, false);
    }

    method Upload(role: Device, id: JobId, h: Hash, offset: Option<nat>, payload: Bytes) returns (r: Reply<Ack>)
      modifies this`uploads, this`chunks, this`objects
      ensures Answers(old(State()), State(), BrokerState.Upload(old(State()), role, id, h, offset, payload), r)
    {
      hide Appended;
      if id !in jobs || jobs[id].manifest.origin != role || jobs[id].state == DELIVERED { return Denied(NotWritable); }
      if h !in jobs[id].needs || h !in objects { return Denied(NotNeeded); }
      var size := objects[h].size;
      var at := Measure(h, size);
      if at.None? { return Denied(BadObject); }
      if payload != [] && offset == at {
        if at.value + |payload| > size || |payload| > PACKET { return Denied(BeyondBlock); }
        var ack := Append(h, payload);
        return Granted(ack);
      }
      objects := objects[h := Object(size, h in chunks, at.value)];
      return Granted(Ack(at.value, at.value == size, payload != [], false));
    }

    // -------------------------------------------------------------- commit, ack, collection

    /** The device declares every block of a chunk list; rows that exist keep their size. */
    method Declare(d: Device, list: seq<Chunk>)
      modifies this`inventory
      ensures inventory == Stocked(old(inventory), d, list)
      ensures forall e, h :: (e, h) in inventory <==> (e, h) in old(inventory) || (e == d && exists i :: 0 <= i < |list| && list[i].hash == h)
      ensures forall e, h | (e, h) in inventory ::
                if (e, h) in old(inventory) then inventory[(e, h)] == old(inventory)[(e, h)]
                else exists i :: 0 <= i < |list| && list[i] == Chunk(h, inventory[(e, h)])
    {
      for i := 0 to |list|
        invariant inventory == Stocked(old(inventory), d, list[..i])
        invariant forall e, h :: (e, h) in inventory <==> (e, h) in old(inventory) || (e == d && exists j :: 0 <= j < i && list[j].hash == h)
        invariant forall e, h | (e, h) in inventory ::
                    if (e, h) in old(inventory) then inventory[(e, h)] == old(inventory)[(e, h)]
                    else exists j :: 0 <= j < i && list[j] == Chunk(h, inventory[(e, h)])
      {
        assert list[..i + 1][..i] == list[..i];
        if (d, list[i].hash) !in inventory {
          inventory := inventory[(d, list[i].hash) := list[i].size];
        }
      }
      assert list[..|list|] == list;
    }

    /** Whether every object of a job is on disk in full; the rows read back are returned, not yet written. */
    method Verify(id: JobId) returns (ok: bool, rows: map<Hash, Object>)
      requires id in jobs
      ensures ok == Uploaded(State(), id)
      ensures ok ==> rows == Published(State(), id).objects
    {
      ghost var tracked := Tracked(State(), id);
      var todo := set h | h in jobs[id].needs && h in objects;
      rows := objects;
      while todo != {}
        invariant todo <= tracked && rows.Keys == objects.Keys
        invariant forall h | h in tracked - todo :: Offset(State(), h, objects[h].size) == Some(objects[h].size)
        invariant forall h | h in objects ::
          rows[h] == if h in tracked - todo then Object(objects[h].size, h in chunks, objects[h].size) else objects[h]
      {
        var h :| h in todo;
        var at := Measure(h, objects[h].size);
        if at != Some(objects[h].size) { return false, rows; }
        rows := rows[h := Object(objects[h].size, h in chunks, objects[h].size)];
        todo := todo - {h};
      }
      ok := true;
      assert tracked - todo == tracked;
    }

    method Commit(role: Device, id: JobId) returns (r: Reply<Digest>)
      modifies this
      ensures Answers(old(State()), State(), BrokerState.Commit(old(State()), role, id), r)
    {
      if id !in jobs || jobs[id].manifest.origin != role { return Denied(UnknownJob); }
      var m := jobs[id].manifest;
      if jobs[id].state == STAGING {
        var head := if m.key in heads then Some(heads[m.key]) else None;
        if head != m.parent { return Denied(VersionConflict); }
        var ok, rows := Verify(id);
        if !ok { return Denied(Incomplete); }
        hide Uploaded, Stocked;
        objects := rows;
        jobs := jobs[id := jobs[id].(state := READY, receipts := jobs[id].receipts + {role})];
        heads := heads[m.key := id];
        Declare(role, m.chunks);
        assert State() == Published(old(State()), id);
      }
      return Granted(ManifestHash(m));
    }

    /** The collection that follows an acknowledgement: blocks no undelivered version refers to are deleted. */
    method Collect()
      modifies this`objects, this`chunks, this`uploads
      ensures State() == Gc(old(State()))
    {
      ghost var garbage := Garbage(State());
      var todo := set h | h in objects && forall id | id in jobs && h in jobs[id].blocks :: jobs[id].state == DELIVERED;
      assert todo == garbage;
      while todo != {}
        invariant todo <= garbage
        invariant objects == old(objects) - (garbage - todo)
        invariant chunks == old(chunks) - (garbage - todo) && uploads == old(uploads) - (garbage - todo)
      {
        var h :| h in todo;
        Removed(old(objects), garbage, todo, h);
        Removed(old(chunks), garbage, todo, h);
        Removed(old(uploads), garbage, todo, h);
        chunks, uploads, objects := chunks - {h}, uploads - {h}, objects - {h};
        todo := todo - {h};
      }
      assert garbage - todo == garbage;
    }

    method Acknowledge(role: Device, id: JobId, digest: Digest) returns (r: Reply<()>)
      modifies this
      ensures Answers(old(State()), State(), BrokerState.Acknowledge(old(State()), role, id, digest), r)
    {
      if id !in jobs || !jobs[id].Committed() || ManifestHash(jobs[id].manifest) != digest { return Denied(BadReceipt); }
      hide Stocked, Gc;
      var receipts := jobs[id].receipts + {role};
      var delivered := |jobs[id].recipients| >= 2 && jobs[id].recipients <= receipts;
      jobs := jobs[id := jobs[id].(receipts := receipts, state := if delivered then DELIVERED else jobs[id].state)];
      Declare(role, jobs[id].manifest.chunks);
      assert State() == Receipted(old(State()), role, id);
      Collect();
      return Granted(());
    }

    // -------------------------------------------------------------- bindings, repairs, upgrade

    method CreateDataset(ds: Dataset) returns (r: Reply<()>)
      modifies this`datasets
      ensures Answers(old(State()), State(), BrokerState.CreateDataset(old(State()), ds), r)
    {
      if ds !in datasets && |datasets| >= MAX_DATASETS { return Denied(TooManyDatasets); }
      datasets := datasets + {ds};
      return Granted(());
    }

    method Bind(role: Device, ds: Dataset) returns (r: Reply<()>)
      modifies this`bindings, this`jobs
      ensures Answers(old(State()), State(), BrokerState.Bind(old(State()), role, ds), r)
    {
      if ds !in datasets { return Denied(UnknownDataset); }
      bindings := bindings + {(ds, role)};
      jobs := map id | id in jobs :: if jobs[id].manifest.key.dataset == ds then Subscribed(jobs[id], role) else jobs[id];
      return Granted(());
    }

    method Unbind(role: Device, ds: Dataset) returns (r: Reply<()>)
      modifies this`bindings
      ensures Answers(old(State()), State(), BrokerState.Unbind(old(State()), role, ds), r)
    {
      if ds !in datasets { return Denied(UnknownDataset); }
      bindings := bindings - {(ds, role)};
      return Granted(());
    }

    /** Some other recipient has neither acknowledged the version nor declared the block. */
    predicate AnyoneLacks(job: Job, h: Hash)
      reads this`inventory
    {
      exists t | t in job.recipients :: t != job.manifest.origin && t !in job.receipts && (t, h) !in inventory
    }

    /** The versions of a source that waiting recipients cannot get any more. */
    method Repairs(role: Device, ds: Dataset) returns (ids: set<JobId>)
      ensures ids == BrokerState.Repairs(State(), role, ds)
    {
      ids := set id | id in jobs
        && jobs[id].manifest.key.dataset == ds && jobs[id].manifest.origin == role && jobs[id].state == READY
        && (exists h | h in jobs[id].blocks :: !(h in objects && objects[h].complete) && AnyoneLacks(jobs[id], h));
    }

    /** Rows and needs for the missing blocks of a version. */
    method Restage(id: JobId, missing: map<Hash, nat>)
      requires id in jobs && missing == Missing(State(), jobs[id])
      modifies this`objects, this`jobs
      ensures State() == Restaged(old(State()), id)
    {
      hide Missing, NewObjects, Absent;
      InsertObjects(missing);
      jobs := jobs[id := jobs[id].(needs := jobs[id].needs + missing.Keys)];
    }

    method RepairPrepare(role: Device, id: JobId) returns (r: Reply<Plan>)
      modifies this
      ensures Answers(old(State()), State(), BrokerState.RepairPrepare(old(State()), role, id), r)
    {
      if id !in jobs || jobs[id].manifest.origin != role || jobs[id].state != READY { return Denied(CannotRepair); }
      hide Total;
      var job := jobs[id];
      var missing := map h | h in job.blocks && AnyoneLacks(job, h) :: job.blocks[h];
      assert missing == Missing(State(), job);
      var extra := SumOf(map h | h in missing && h !in objects :: missing[h]);
      var inUse := SumOf(map h | h in objects :: objects[h].size);
      assert extra == Total(Absent(missing, objects)) && inUse == Allocated(objects);
      hide Missing, Restaged;
      if inUse + extra > quota { return Denied(OverQuota); }
      Restage(id, missing);
      var plan := PlanOf(id);
      return Granted(plan.(state := STAGING));
    }

    method Upgrade()
      modifies this`jobs
      ensures State() == BrokerState.Upgrade(old(State()))
    {
      jobs := map id | id in jobs ::
        jobs[id].(recipients := jobs[id].recipients + {jobs[id].manifest.origin}
                                + set b | b in bindings && b.0 == jobs[id].manifest.key.dataset :: b.1);
    }

    // -------------------------------------------------------------- pending, get

    method Pending(role: Device, ds: Dataset) returns (ids: seq<JobId>)
      requires forall i | 0 <= i < |order| :: order[i] in jobs
      ensures ids == BrokerState.Pending(State(), role, ds)
    {
      ghost var keep := set id | id in jobs && Awaits(State(), role, ds, id);
      ids := [];
      for i := 0 to |order|
        invariant ids == Select(order[..i], keep)
      {
        assert order[..i + 1][..i] == order[..i];
        var job := jobs[order[i]];
        if job.manifest.key.dataset == ds && job.state == READY && role !in job.receipts {
          ids := ids + [order[i]];
        }
      }
      assert order[..|order|] == order;
    }

    method Get(id: JobId, h: Hash, offset: nat) returns (r: Reply<Bytes>)
      ensures Answers(State(), State(), BrokerState.Get(State(), id, h, offset), r)
    {
      if id !in jobs || jobs[id].state != READY || h !in jobs[id].blocks || h !in chunks { return Denied(Unavailable); }
      if offset > |chunks[h]| { return Denied(BadOffset); }
      return Granted(chunks[h][offset..Min(offset + PACKET, |chunks[h]|)]);
    }
  }

  lemma Removed<T>(all: map<Hash, T>, garbage: set<Hash>, todo: set<Hash>, h: Hash)
    requires todo <= garbage && h in todo
    ensures all - (garbage - todo) - {h} == all - (garbage - (todo - {h}))
  {
    assert garbage - todo + {h} == garbage - (todo - {h});
  }

  lemma ConflictOutcome(q: Queue, role: Device, m: Manifest)
    requires ValidManifest(m) && m.origin == role && m.key.dataset in q.datasets && m.id !in q.jobs && HeadOf(q, m.key) != m.parent
    ensures BrokerState.Prepare(q, role, m) == Refused(VersionConflict)
  {
  }

  lemma StageOutcome(q: Queue, role: Device, m: Manifest, unique: map<Hash, nat>, others: set<Device>,
                     clash: bool, needed: map<Hash, nat>, extra: nat, inUse: nat)
    requires ValidManifest(m) && m.origin == role && m.key.dataset in q.datasets && m.id !in q.jobs && HeadOf(q, m.key) == m.parent
    requires unique == Sizes(m.chunks) && others == Others(q, m.key.dataset, role)
    requires clash <==> exists h | h in unique :: h in q.objects && q.objects[h].size != unique[h]
    requires !clash ==> needed == map h | h in unique && !HeldByAll(q, others, h, unique[h]) :: unique[h]
    requires !clash ==> extra == Total(Absent(needed, q.objects))
    requires inUse == Allocated(q.objects)
    ensures BrokerState.Prepare(q, role, m)
         == if clash then Refused(SizeClash) else if inUse + extra > q.quota then Refused(OverQuota)
            else Done(Staged(q, role, m), PlanFor(Staged(q, role, m), m.id))
    ensures !clash ==> needed == Needed(q, role, m)
  {
    hide Total, Sizes, Staged, PlanFor;
  }

  lemma AbsentMore(needed: map<Hash, nat>, objects: map<Hash, Object>, h: Hash, size: nat)
    requires h !in needed
    ensures Total(Absent(needed[h := size], objects)) == Total(Absent(needed, objects)) + if h in objects then 0 else size
  {
    hide Total;
    var a := Absent(needed[h := size], objects);
    if h in objects {
      assert a == Absent(needed, objects);
    } else {
      TotalRemove(a, h);
      assert a - {h} == Absent(needed, objects);
    }
  }
}
