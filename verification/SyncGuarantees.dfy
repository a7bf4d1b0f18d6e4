/** What holds in every state that a broker and its devices can reach together, explicit choices included. */
module SyncGuarantees {
  import opened Base
  import opened BrokerState
  import opened BrokerInvariants
  import opened BrokerGuarantees
  import opened ClientState
  import opened Publishing
  import opened SyncSystem
  import opened SyncInvariants

  /** Reachable states: any devices, any quota, any steps. */
  ghost function Reach(quota: nat, devices: set<Device>, events: seq<Event>): System {
    Run(Start(quota, devices), events)
  }

  lemma ReachOk(quota: nat, devices: set<Device>, events: seq<Event>)
    ensures SystemOk(Reach(quota, devices, events))
  {
    StartOk(quota, devices);
    hide SystemOk;
    RunOk(Start(quota, devices), events);
  }

  // ---------------------------------------------------------------- no block is lost

  /** When the collector deletes a block, every recipient of every version that uses it, and so every device
      bound to one of their datasets, has it in its own cache. */
  lemma NoBlockLost(quota: nat, devices: set<Device>, events: seq<Event>, h: Hash, id: JobId, d: Device)
    requires var q := Reach(quota, devices, events).q;
      && h in Garbage(q) && id in q.jobs && h in q.jobs[id].blocks
      && (d in q.jobs[id].recipients || (q.jobs[id].manifest.key.dataset, d) in q.bindings)
    ensures var s := Reach(quota, devices, events); d in s.clients && h in s.clients[d].cache
  {
    var s := Reach(quota, devices, events);
    ReachOk(quota, devices, events);
    assert d in s.q.jobs[id].recipients by { BoundRecipients(s.q, id, d); }
    CollectedKept(s, h, id, d);
  }

  lemma BoundRecipients(q: Queue, id: JobId, d: Device)
    requires Inv(q) && id in q.jobs
    requires d in q.jobs[id].recipients || (q.jobs[id].manifest.key.dataset, d) in q.bindings
    ensures d in q.jobs[id].recipients
  {
    hide Numbered, WellFormed, Parented, Headed, OnlyChildren, ReceiptsBacked, FilesTracked, StagedTracked, WithinQuota;
    assert forall b | b in q.bindings && b.0 == q.jobs[id].manifest.key.dataset :: b.1 in q.jobs[id].recipients;
    if (q.jobs[id].manifest.key.dataset, d) in q.bindings {
      assert (q.jobs[id].manifest.key.dataset, d).1 in q.jobs[id].recipients;
    }
  }

  lemma CollectedKept(s: System, h: Hash, id: JobId, d: Device)
    requires SystemOk(s) && Obsolete(s.q, h) && id in s.q.jobs && h in s.q.jobs[id].blocks && d in s.q.jobs[id].recipients
    ensures d in s.clients && h in s.clients[d].cache
  {
    assert ReceiptsBacked(s.q.jobs, s.q.inventory);
    DeviceOf(s, d);
    hide Inv, Honest, OutboxesApart, DeviceInv, HeadsCommitted, RowsKnown, OutboxOwn, Holding;
    assert s.q.jobs[id].state == DELIVERED;
    assert d in s.q.jobs[id].receipts;
  }

  // ---------------------------------------------------------------- every version stays deliverable

  /** A bound device that still lacks a version can get each of its blocks: from its own cache, from the broker,
      or from the source, which is asked for it, still has it cached and can supply the repair. */
  lemma EveryVersionDeliverable(quota: nat, devices: set<Device>, events: seq<Event>, id: JobId, d: Device, h: Hash)
    requires var q := Reach(quota, devices, events).q;
      id in q.jobs && q.jobs[id].state == READY && d in q.jobs[id].recipients && d !in q.jobs[id].receipts && h in q.jobs[id].blocks
    ensures var s := Reach(quota, devices, events); var m := s.q.jobs[id].manifest;
      && d in s.clients && m.origin in s.clients
      && (|| h in s.clients[d].cache
          || (Served(s.q, id, h) && Sha256(s.q.chunks[h]) == h)
          || (&& id in Repairs(s.q, m.origin, m.key.dataset) && h in Missing(s.q, s.q.jobs[id])
              && h in s.clients[m.origin].cache))
  {
    var s := Reach(quota, devices, events);
    ReachOk(quota, devices, events);
    StaysDeliverable(s.q, id, d, h);
    var o := s.q.jobs[id].manifest.origin;
    DeviceOf(s, d);
    DeviceOf(s, o);
    JobDevices(s, id);
    hide Inv, Honest, OutboxesApart, SystemOk, Repairs, Missing, Served;
    if (d, h) in s.q.inventory { InventoryCached(s, d, h); }
    if (o, h) in s.q.inventory { InventoryCached(s, o, h); }
  }

  lemma DeviceOf(s: System, d: Device)
    requires SystemOk(s)
    ensures d in s.clients ==> DeviceInv(s.q, d, s.clients[d]) && DeviceCore(s.q, d, s.clients[d])
  {
    hide Inv, Honest, KnownDevices, OutboxesApart, DeviceInv, DeviceCore;
    if d in s.clients {
      CoreOf(s.q, d, s.clients[d]);
    }
  }

  lemma StrictDevice(s: System, d: Device)
    requires SystemOk(s) && d in s.clients && !s.clients[d].chose
    ensures DeviceOk(s.q, d, s.clients[d])
  {
    hide Inv, Honest, KnownDevices, OutboxesApart, DeviceOk, DeviceCore;
  }

  lemma JobDevices(s: System, id: JobId)
    requires SystemOk(s) && id in s.q.jobs
    ensures s.q.jobs[id].recipients <= s.clients.Keys && s.q.jobs[id].manifest.origin in s.q.jobs[id].recipients
  {
    assert WellFormed(s.q.jobs) && KnownDevices(s.q, s.clients.Keys);
    hide Inv, Honest, DeviceInv, OutboxesApart;
  }

  lemma InventoryCached(s: System, d: Device, h: Hash)
    requires d in s.clients && DeviceCore(s.q, d, s.clients[d]) && (d, h) in s.q.inventory
    ensures h in s.clients[d].cache
  {
    hide HeadsCommitted, RowsKnown, OutboxOwn, Holding;
  }

  /** Whenever the broker accepts a repair, the source can supply it, and then every missing block is served again. */
  lemma RepairsComplete(quota: nat, devices: set<Device>, events: seq<Event>, d: Device, id: JobId)
    requires var s := Reach(quota, devices, events); d in s.clients && RepairPrepare(s.q, d, id).Done?
    ensures var s := Reach(quota, devices, events); var c := s.clients[d];
      && Fixes(c, s.q, id)
      && forall h | h in Missing(s.q, s.q.jobs[id]) :: Served(FixedBy(c, s.q, id), id, h)
  {
    var s := Reach(quota, devices, events);
    ReachOk(quota, devices, events);
    DeviceOf(s, d);
    var c := s.clients[d];
    assert c.role == d;
    RepairSupplied(s, d, id);
    forall h | h in Missing(s.q, s.q.jobs[id])
      ensures Served(FixedBy(c, s.q, id), id, h)
    {
      RepairDelivers(c, s.q, id, h);
    }
  }

  lemma RepairSupplied(s: System, d: Device, id: JobId)
    requires SystemOk(s) && d in s.clients && RepairPrepare(s.q, d, id).Done?
    ensures Fixes(s.clients[d], s.q, id)
  {
    hide Total, SystemOk, DeviceInv, Inv, Honest, WellFormed, KnownDevices, Restaged;
    RepairAccepted(s.q, d, id);
    OwnBlocks(s, d, id);
    KnownOf(s);
    RestageHonest(s.q, id, s.clients.Keys);
    RestagedNeeds(s.q, id);
    hide RepairPrepare;
    NeedsSupplied(s.clients[d], Restaged(s.q, id), id, s.q.jobs[id].blocks.Keys);
    hide PlanFor;
    assert s.clients[d].role == d by { RoleOf(s, d); }
  }

  lemma KnownOf(s: System)
    requires SystemOk(s)
    ensures Honest(s.q) && KnownDevices(s.q, s.clients.Keys)
  {
    hide Inv, Honest, DeviceInv, OutboxesApart, KnownDevices;
  }

  lemma RoleOf(s: System, d: Device)
    requires SystemOk(s) && d in s.clients
    ensures s.clients[d].role == d
  {
    DeviceOf(s, d);
    hide SystemOk, HeadsCommitted, RowsKnown, OutboxOwn, BlocksKept;
  }

  lemma RepairAccepted(q: Queue, d: Device, id: JobId)
    requires RepairPrepare(q, d, id).Done?
    ensures id in q.jobs && q.jobs[id].manifest.origin == d
    ensures RepairPrepare(q, d, id) == Done(Restaged(q, id), PlanFor(Restaged(q, id), id).(state := STAGING))
  {
    hide Total, Restaged, Missing;
  }

  lemma NeedsSupplied(c: Client, q: Queue, id: JobId, blocks: set<Hash>)
    requires id in q.jobs && Honest(q) && q.jobs[id].needs <= blocks <= c.cache
    ensures Supplies(c, PlanFor(q, id).(state := STAGING))
  {
    hide Truthful;
  }

  lemma RestagedNeeds(q: Queue, id: JobId)
    requires id in q.jobs && WellFormed(q.jobs)
    ensures var q' := Restaged(q, id); id in q'.jobs && q'.jobs[id].needs <= q.jobs[id].blocks.Keys
  {
    hide Sizes, ValidManifest, Wanted;
  }

  lemma OwnBlocks(s: System, d: Device, id: JobId)
    requires SystemOk(s) && d in s.clients && id in s.q.jobs && s.q.jobs[id].manifest.origin == d
    ensures s.q.jobs[id].blocks.Keys <= s.clients[d].cache && WellFormed(s.q.jobs)
  {
    DeviceOf(s, d);
    assert WellFormed(s.q.jobs);
    hide Inv, Honest, OutboxesApart, DeviceInv, HeadsCommitted, RowsKnown, OutboxOwn, Holding, WellFormed;
  }

  // ---------------------------------------------------------------- recorded heads and receipts

  predicate Acknowledged(q: Queue, d: Device, id: JobId) {
    id in q.jobs && d in q.jobs[id].receipts
  }

  /** A device's recorded head is a committed version of the file, and the versions that carry its receipt are those
      up to that head; only an own committed version still in the outbox, which is the next one after the head, may be
      there early, and only an applied version whose acknowledgement is under way may be missing. */
  ghost predicate RecordsChain(q: Queue, d: Device, c: Client, k: Key) {
    var upto := Upto(q, c, k);
    && (if k in c.files then |upto| > 0 && upto[|upto| - 1] == c.files[k].id && IsCommitted(q, c.files[k]) else upto == [])
    && upto <= History(q, k)
    && (forall id | id in upto :: Acknowledged(q, d, id) || AppliedRow(c, id))
    && (forall id | id in History(q, k) && Acknowledged(q, d, id) :: id in upto || id in c.outbox)
    && (forall id | id in History(q, k) && id in c.outbox :: Acknowledged(q, d, id) && c.outbox[id].parent == Recorded(c, k))
  }

  /** A device that made no explicit choice records the chain, with at most one exception of each kind per dataset,
      whatever the others chose. */
  lemma RecordedChain(quota: nat, devices: set<Device>, events: seq<Event>, d: Device, k: Key)
    requires d in devices && NeverChooses(events, d)
    ensures var s := Reach(quota, devices, events);
      d in s.clients && RecordsChain(s.q, d, s.clients[d], k) && OneRowEach(s.clients[d]) && OneOutboxEach(s.clients[d])
  {
    var s := Reach(quota, devices, events);
    ReachOk(quota, devices, events);
    ClientsKept(Start(quota, devices), events);
    UnchosenRun(Start(quota, devices), events, d);
    StrictDevice(s, d);
    hide Honest, OutboxesApart, Reach, Run, RecordsChain, DeviceOk, DeviceCore;
    RecordsOk(s.q, d, s.clients[d], k);
  }

  predicate NeverChooses(events: seq<Event>, d: Device) {
    forall i | 0 <= i < |events| :: events[i] != Chooses(d)
  }

  /** The history variable says what it is named after. */
  lemma {:induction false} UnchosenRun(s: System, events: seq<Event>, d: Device)
    requires NeverChooses(events, d) && d in s.clients && !s.clients[d].chose
    ensures d in Run(s, events).clients && !Run(s, events).clients[d].chose
    decreases |events|
  {
    if events != [] {
      UnchosenStep(s, events[0], d);
      StepClients(s, events[0]);
      hide Step;
      assert forall i | 0 <= i < |events[1..]| :: events[1..][i] == events[i + 1];
      UnchosenRun(Step(s, events[0]), events[1..], d);
    }
  }

  lemma UnchosenStep(s: System, e: Event, d: Device)
    requires e != Chooses(d) && d in s.clients && !s.clients[d].chose
    ensures d in Step(s, e).clients && !Step(s, e).clients[d].chose
  {
    hide BrokerAfter, Truthful, Holding, Unused, IsCommitted;
  }

  lemma RecordsOk(q: Queue, d: Device, c: Client, k: Key)
    requires Inv(q) && DeviceOk(q, d, c)
    ensures RecordsChain(q, d, c, k) && OneRowEach(c) && OneOutboxEach(c)
  {
    hide Numbered, WellFormed, Parented, Headed, OnlyChildren, BoundReceive, FilesTracked, StagedTracked, WithinQuota;
    hide ReceiptsBacked, HeadsCommitted, ReceiptsExact, RowsInOrder, OutboxInOrder, BlocksKept, StagedFromOutbox;
    hide Upto, History, OneRowEach, OneOutboxEach, IsCommitted;
    OneEach(q, d, c);
    HistoryMembers(q, k);
    UptoPrefix(q, c, k);
    UptoLast(q, c, k);
    ReceiptedUpto(q, d, c, k);
    OutboxCommitted(q, d, c, k);
  }

  lemma OneEach(q: Queue, d: Device, c: Client)
    requires RowsInOrder(q, d, c) && OutboxInOrder(q, d, c)
    ensures OneRowEach(c) && OneOutboxEach(c)
  {
    hide OneRowEach, OneOutboxEach, Truthful, Holding, Upto;
  }

  lemma UptoLast(q: Queue, c: Client, k: Key)
    requires Parented(q.jobs) && HeadsCommitted(q, c)
    ensures var upto := Upto(q, c, k);
      if k in c.files then |upto| > 0 && upto[|upto| - 1] == c.files[k].id && IsCommitted(q, c.files[k]) else upto == []
  {
    if k in c.files {
      LineageChain(q.jobs, c.files[k].id);
    }
  }

  lemma {:induction false} ClientsKept(s: System, events: seq<Event>)
    ensures Run(s, events).clients.Keys == s.clients.Keys
    decreases |events|
  {
    if events != [] {
      StepClients(s, events[0]);
      hide Step;
      ClientsKept(Step(s, events[0]), events[1..]);
    }
  }

  lemma StepClients(s: System, e: Event)
    ensures Step(s, e).clients.Keys == s.clients.Keys
  {
    hide BrokerAfter, ClientAfter, Enabled;
    if Enabled(s, e) {
      EnabledDevice(s, e);
      assert s.clients[e.d := ClientAfter(s, e)].Keys == s.clients.Keys;
    }
  }

  /** An ancestor's lineage is a prefix of its descendant's. */
  lemma {:induction false} LineagePrefix(jobs: map<JobId, Job>, id: JobId, a: JobId)
    requires Parented(jobs) && id in jobs && a in Lineage(jobs, id)
    ensures Lineage(jobs, a) <= Lineage(jobs, id)
    decreases jobs[id].number
  {
    if a != id {
      LineagePrefix(jobs, jobs[id].manifest.parent.value, a);
    }
  }

  lemma UptoPrefix(q: Queue, c: Client, k: Key)
    requires Parented(q.jobs) && Headed(q.jobs, q.heads) && HeadsCommitted(q, c)
    ensures Upto(q, c, k) <= History(q, k)
  {
    if k in c.files {
      LineagePrefix(q.jobs, q.heads[k], c.files[k].id);
    }
  }

  lemma ReceiptedUpto(q: Queue, d: Device, c: Client, k: Key)
    requires Parented(q.jobs) && HeadsCommitted(q, c) && ReceiptsExact(q, d, c)
    requires forall id :: id in History(q, k) <==> id in q.jobs && q.jobs[id].Committed() && q.jobs[id].manifest.key == k
    requires Upto(q, c, k) <= History(q, k)
    ensures forall id | id in Upto(q, c, k) :: Acknowledged(q, d, id) || AppliedRow(c, id)
    ensures forall id | id in History(q, k) && Acknowledged(q, d, id) :: id in Upto(q, c, k) || id in c.outbox
  {
    hide Upto, Parented, HeadsCommitted;
    forall id | id in Upto(q, c, k)
      ensures id in History(q, k)
    {
    }
    hide History;
  }

  lemma OutboxCommitted(q: Queue, d: Device, c: Client, k: Key)
    requires ReceiptsBacked(q.jobs, q.inventory) && OutboxInOrder(q, d, c)
    requires forall id :: id in History(q, k) <==> id in q.jobs && q.jobs[id].Committed() && q.jobs[id].manifest.key == k
    ensures forall id | id in History(q, k) && id in c.outbox :: Acknowledged(q, d, id) && c.outbox[id].parent == Recorded(c, k)
  {
    hide History, Truthful, Holding, Upto, OneOutboxEach;
  }

  // ---------------------------------------------------------------- partial uploads

  /** Every published block hashes to its name, and every partial upload is a proper prefix of its block. */
  lemma UploadsTrue(quota: nat, devices: set<Device>, events: seq<Event>, h: Hash)
    ensures var q := Reach(quota, devices, events).q;
      && (h in q.chunks ==> q.chunks[h] == h.preimage)
      && (h in q.uploads ==> q.uploads[h] < h.preimage)
  {
    var q := Reach(quota, devices, events).q;
    ReachOk(quota, devices, events);
    assert FilesTracked(q.objects, q.chunks, q.uploads) && Honest(q);
    hide SystemOk, Reach, Truthful;
  }
}
