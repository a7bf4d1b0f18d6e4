/**
 One broker and its devices. A step is one durable write of one device or one transaction of the broker, so the
 steps of different devices interleave freely and a device may stop, lose power and start again between any two.
 A device that has made an explicit choice between versions is no longer held to the tests such a choice skips.
 */
module SyncSystem {
  import opened Base
  import opened BrokerState
  import opened BrokerInvariants
  import opened BrokerGuarantees
  import opened ClientState

  datatype System = System(q: Queue, clients: map<Device, Client>)

  datatype Event =
    | Asks(d: Device, request: Request)                   // dataset_create, bind, unbind, upgrade, collect
    | Edits(d: Device, k: Key, content: Option<Bytes>)    // the user changes or deletes a working file
    | Caches(d: Device, block: Bytes)
    | SavesPart(d: Device, h: Hash, n: nat)
    | Downloads(d: Device, h: Hash)
    | Snapshots(d: Device, m: Manifest)                   // a new version enters the outbox
    | Prepares(d: Device, id: JobId)
    | Puts(d: Device, id: JobId, h: Hash, offset: nat, n: nat)
    | Commits(d: Device, id: JobId)
    | Announces(d: Device, id: JobId)                     // the committed version becomes the recorded head
    | Restages(d: Device, id: JobId)                      // repair_prepare
    | Journals(d: Device, m: Manifest)
    | Marks(d: Device, id: JobId)
    | Settles(d: Device, id: JobId)
    | Accepts(d: Device, id: JobId)
    | Confirms(d: Device, id: JobId)                      // the receipt reaches the broker
    | Drops(d: Device, id: JobId)
    | Chooses(d: Device)                                  // the user decides between two versions of a file
    | Backs(d: Device, k: Key)                            // the working file is copied before it is replaced
    | Forgets(d: Device, k: Key)                          // the outbox drops what it held for the decided file

  predicate Administrative(r: Request) {
    r.CreateDatasetRequest? || r.BindRequest? || r.UnbindRequest? || r.UpgradeRequest? || r.CollectRequest?
  }

  predicate NoRowOf(c: Client, ds: Dataset) {
    forall id | id in c.inbox :: c.inbox[id].manifest.key.dataset != ds
  }

  predicate NoOutboxOf(c: Client, ds: Dataset) {
    forall id | id in c.outbox :: c.outbox[id].key.dataset != ds
  }

  predicate IsCommitted(q: Queue, m: Manifest) {
    m.id in q.jobs && q.jobs[m.id].manifest == m && q.jobs[m.id].Committed()
  }

  /** Version identifiers are drawn at random: a new one is not in use anywhere. */
  predicate Unused(s: System, id: JobId) {
    id !in s.q.jobs && forall e | e in s.clients :: id !in s.clients[e].outbox
  }

  /** What the code has checked when it takes a step. */
  predicate Enabled(s: System, e: Event) {
    e.d in s.clients &&
    var c := s.clients[e.d];
    match e
    case Asks(_, r) => Administrative(r)
    case Edits(_, _, _) => true
    case Caches(_, _) => true
    case SavesPart(_, h, n) => n <= |h.preimage|
    case Downloads(_, _) => true
    case Snapshots(d, m) =>
      && m.origin == d && Truthful(m) && Holding(c, m) && m.parent == Recorded(c, m.key)
      && (c.chose || NoOutboxOf(c, m.key.dataset)) && Unused(s, m.id)
    case Prepares(_, id) => id in c.outbox
    case Puts(_, _, h, offset, _) => h in c.cache && offset <= |h.preimage|
    case Commits(_, id) => id in c.outbox || (id in s.q.jobs && s.q.jobs[id].Committed())
    case Announces(_, id) => id in c.outbox && IsCommitted(s.q, c.outbox[id])
    case Restages(_, _) => true
    case Journals(d, m) =>
      && IsCommitted(s.q, m)
      && (c.chose || (d !in s.q.jobs[m.id].receipts && m.parent == Recorded(c, m.key) && NoRowOf(c, m.key.dataset)))
    case Marks(_, id) => id in c.inbox && !c.inbox[id].phase.Applied? && Holding(c, c.inbox[id].manifest)
    case Settles(_, id) => id in c.inbox && c.inbox[id].phase.Ready?
    case Accepts(_, id) =>
      id in c.inbox && c.inbox[id].manifest.id == id && c.inbox[id].phase.Ready?
      && (c.chose || c.inbox[id].manifest.parent == Recorded(c, c.inbox[id].manifest.key))
    case Confirms(_, id) => id in c.inbox && c.inbox[id].phase.Applied?
    case Drops(d, id) => id in c.inbox && c.inbox[id].phase.Applied? && id in s.q.jobs && d in s.q.jobs[id].receipts
    case Chooses(_) => true
    case Backs(_, _) => true
    case Forgets(_, _) => c.chose
  }

  function Slice(h: Hash, offset: nat, n: nat): Bytes
    requires offset <= |h.preimage|
  {
    h.preimage[offset..Min(offset + n, |h.preimage|)]
  }

  ghost function BrokerAfter(s: System, e: Event): Queue
    requires Enabled(s, e)
  {
    match e
    case Asks(d, r) => Handle(s.q, d, r)
    case Prepares(d, id) => Handle(s.q, d, PrepareRequest(s.clients[d].outbox[id]))
    case Puts(d, id, h, offset, n) => Handle(s.q, d, PutRequest(id, h, Some(offset), Slice(h, offset, n)))
    case Commits(d, id) => Handle(s.q, d, CommitRequest(id))
    case Restages(d, id) => Handle(s.q, d, RepairRequest(id))
    case Confirms(d, id) => Handle(s.q, d, ReceiptRequest(id, ManifestHash(s.clients[d].inbox[id].manifest)))
    case _ => s.q
  }

  function ClientAfter(s: System, e: Event): Client
    requires Enabled(s, e)
  {
    var c := s.clients[e.d];
    match e
    case Edits(_, k, content) => Edited(c, k, content)
    case Caches(_, block) => WithBlock(c, Sha256(block))
    case SavesPart(_, h, n) => WithPartial(c, h, n)
    case Downloads(_, h) => WithDownload(c, h)
    case Snapshots(_, m) => Queued(c, m)
    case Announces(_, id) => Announced(c, c.outbox[id])
    case Journals(_, m) => Journaled(c, m)
    case Marks(_, id) => Marked(c, id)
    case Settles(_, id) => Replaced(c, c.inbox[id].manifest)
    case Accepts(_, id) => Accepted(c, c.inbox[id].manifest)
    case Drops(_, id) => Dropped(c, id)
    case Chooses(_) => Choosing(c)
    case Backs(_, k) => Backup(c, k)
    case Forgets(_, k) => WithoutOutbox(c, k)
    case _ => c
  }

  ghost function Step(s: System, e: Event): System {
    if Enabled(s, e) then System(BrokerAfter(s, e), s.clients[e.d := ClientAfter(s, e)]) else s
  }

  ghost function Run(s: System, events: seq<Event>): System
    decreases |events|
  {
    if events == [] then s else Run(Step(s, events[0]), events[1..])
  }

  lemma {:induction false} RunAppend(s: System, a: seq<Event>, b: seq<Event>)
    ensures Run(s, a + b) == Run(Run(s, a), b)
    decreases |a|
  {
    if a == [] {
      assert a + b == b;
    } else {
      RunAppend(Step(s, a[0]), a[1..], b);
      assert (a + b)[0] == a[0] && (a + b)[1..] == a[1..] + b;
    }
  }

  function Start(quota: nat, devices: set<Device>): System {
    System(Empty(quota), map d | d in devices :: Fresh(d))
  }

  // ---------------------------------------------------------------- the invariant of one device

  /** The versions a device has recorded for a file, oldest first. */
  ghost function Upto(q: Queue, c: Client, k: Key): seq<JobId> {
    if k in c.files then Lineage(q.jobs, c.files[k].id) else []
  }

  predicate AppliedRow(c: Client, id: JobId) {
    id in c.inbox && c.inbox[id].phase.Applied?
  }

  ghost predicate HeadsCommitted(q: Queue, c: Client) {
    forall k | k in c.files :: IsCommitted(q, c.files[k]) && c.files[k].key == k
  }

  /** A committed version has the device's receipt or an applied row exactly when it is recorded or in the outbox. */
  ghost predicate ReceiptsExact(q: Queue, d: Device, c: Client) {
    forall id | id in q.jobs && q.jobs[id].Committed() ::
      (d in q.jobs[id].receipts || AppliedRow(c, id)) <==> (id in Upto(q, c, q.jobs[id].manifest.key) || id in c.outbox)
  }

  /** The inbox is worked off before anything else is received: one row per dataset. */
  predicate OneRowEach(c: Client) {
    forall a, b | a in c.inbox && b in c.inbox && c.inbox[a].manifest.key.dataset == c.inbox[b].manifest.key.dataset :: a == b
  }

  /** The outbox is published before anything new is scanned: one version per dataset. */
  predicate OneOutboxEach(c: Client) {
    forall a, b | a in c.outbox && b in c.outbox && c.outbox[a].key.dataset == c.outbox[b].key.dataset :: a == b
  }

  /** Inbox rows hold other devices' committed versions: the next one of their file, or one already recorded. */
  ghost predicate RowsInOrder(q: Queue, d: Device, c: Client) {
    && (forall id | id in c.inbox ::
          var m := c.inbox[id].manifest;
          && m.id == id && IsCommitted(q, m) && m.origin != d
          && (if c.inbox[id].phase.Applied? then id in Upto(q, c, m.key) else m.parent == Recorded(c, m.key)))
    && OneRowEach(c)
  }

  /** An outbox version that can no longer be committed: its parent was passed by before it was published. */
  ghost predicate Overtaken(q: Queue, c: Client, m: Manifest) {
    && (m.id in q.jobs ==> !q.jobs[m.id].Committed())
    && m.key in c.files
    && (m.parent.Some? ==> m.parent.value in Upto(q, c, m.key) && m.parent.value != c.files[m.key].id)
  }

  /** Outbox versions are the device's own, with cached blocks, on the recorded head or overtaken. */
  ghost predicate OutboxInOrder(q: Queue, d: Device, c: Client) {
    && (forall id | id in c.outbox ::
          var m := c.outbox[id];
          && m.id == id && m.origin == d && Truthful(m) && Holding(c, m)
          && (id in q.jobs ==> q.jobs[id].manifest == m)
          && (m.parent == Recorded(c, m.key) || Overtaken(q, c, m)))
    && OneOutboxEach(c)
  }

  /** Blocks are in the device's cache for its own versions, for its receipts and for its inventory;
      partial downloads are true prefixes. */
  ghost predicate BlocksKept(q: Queue, d: Device, c: Client) {
    && (forall id | id in q.jobs && (q.jobs[id].manifest.origin == d || d in q.jobs[id].receipts) :: q.jobs[id].blocks.Keys <= c.cache)
    && (forall h | (d, h) in q.inventory :: h in c.cache)
    && (forall id | id in c.inbox && !c.inbox[id].phase.Downloading? :: Holding(c, c.inbox[id].manifest))
    && (forall h | h in c.partial :: c.partial[h] <= h.preimage)
  }

  ghost predicate StagedFromOutbox(q: Queue, d: Device, c: Client) {
    forall id | id in q.jobs && q.jobs[id].manifest.origin == d && q.jobs[id].state == STAGING :: id in c.outbox
  }

  /** What holds of a device that never made an explicit choice. */
  ghost predicate DeviceOk(q: Queue, d: Device, c: Client) {
    && c.role == d
    && HeadsCommitted(q, c)
    && ReceiptsExact(q, d, c)
    && RowsInOrder(q, d, c)
    && OutboxInOrder(q, d, c)
    && BlocksKept(q, d, c)
    && StagedFromOutbox(q, d, c)
  }

  /** Inbox rows hold committed versions. */
  ghost predicate RowsKnown(q: Queue, c: Client) {
    forall id | id in c.inbox :: c.inbox[id].manifest.id == id && IsCommitted(q, c.inbox[id].manifest)
  }

  /** Outbox versions are the device's own, with cached blocks. */
  ghost predicate OutboxOwn(q: Queue, d: Device, c: Client) {
    forall id | id in c.outbox ::
      var m := c.outbox[id];
      m.id == id && m.origin == d && Truthful(m) && Holding(c, m) && (id in q.jobs ==> q.jobs[id].manifest == m)
  }

  /** What holds of every device. */
  ghost predicate DeviceCore(q: Queue, d: Device, c: Client) {
    c.role == d && HeadsCommitted(q, c) && RowsKnown(q, c) && OutboxOwn(q, d, c) && BlocksKept(q, d, c)
  }

  ghost predicate DeviceInv(q: Queue, d: Device, c: Client) {
    if c.chose then DeviceCore(q, d, c) else DeviceOk(q, d, c)
  }

  lemma CoreOf(q: Queue, d: Device, c: Client)
    requires DeviceInv(q, d, c)
    ensures DeviceCore(q, d, c)
  {
    hide Truthful, Holding, Upto, Overtaken, ReceiptsExact, HeadsCommitted, BlocksKept, OneRowEach, OneOutboxEach;
  }

  // ---------------------------------------------------------------- the invariant of the whole

  /** Manifests, object sizes and partial uploads are what honest sources make them. */
  ghost predicate Honest(q: Queue) {
    && (forall id | id in q.jobs :: Truthful(q.jobs[id].manifest))
    && (forall h | h in q.objects :: q.objects[h].size == |h.preimage|)
    && (forall h | h in q.uploads :: q.uploads[h] <= h.preimage)
  }

  ghost predicate KnownDevices(q: Queue, devices: set<Device>) {
    && (forall b | b in q.bindings :: b.1 in devices)
    && (forall id | id in q.jobs :: q.jobs[id].recipients <= devices)
  }

  ghost predicate OutboxesApart(clients: map<Device, Client>) {
    forall a, b, id | a in clients && b in clients && id in clients[a].outbox && id in clients[b].outbox :: a == b
  }

  ghost predicate SystemOk(s: System) {
    && Inv(s.q)
    && Honest(s.q)
    && KnownDevices(s.q, s.clients.Keys)
    && OutboxesApart(s.clients)
    && forall d | d in s.clients :: DeviceInv(s.q, d, s.clients[d])
  }

  lemma PartsOf(s: System)
    requires SystemOk(s)
    ensures Inv(s.q) && Honest(s.q) && FilesTracked(s.q.objects, s.q.chunks, s.q.uploads)
  {
    FilesOf(s.q);
    hide Inv, Honest, FilesTracked, KnownDevices, OutboxesApart, DeviceInv;
  }

  lemma SliceIs(h: Hash, offset: nat, n: nat)
    requires offset <= |h.preimage|
    ensures var payload := Slice(h, offset, n);
      offset + |payload| <= |h.preimage| && payload == h.preimage[offset..offset + |payload|]
  {
  }

  // ---------------------------------------------------------------- frames: what other devices do

  /** Versions are only added, and only ever become committed. */
  ghost predicate Evolves(q: Queue, q': Queue) {
    forall id | id in q.jobs ::
      && id in q'.jobs && q'.jobs[id].manifest == q.jobs[id].manifest && q'.jobs[id].number == q.jobs[id].number
      && q'.jobs[id].blocks == q.jobs[id].blocks && (q.jobs[id].Committed() ==> q'.jobs[id].Committed())
  }

  /** Nothing that concerns a device changed: its receipts, inventory and own versions are as before. */
  ghost predicate Unmoved(q: Queue, q': Queue, d: Device, c: Client) {
    && (forall id | id in q'.jobs && d in q'.jobs[id].receipts :: id in q.jobs && d in q.jobs[id].receipts)
    && (forall id | id in q.jobs && d in q.jobs[id].receipts :: id in q'.jobs && d in q'.jobs[id].receipts)
    && (forall h :: (d, h) in q'.inventory <==> (d, h) in q.inventory)
    && (forall id | id in q'.jobs && (id !in q.jobs || q'.jobs[id].Committed() != q.jobs[id].Committed()) ::
          q'.jobs[id].manifest.origin != d && id !in c.outbox)
  }

  lemma UptoStable(q: Queue, q': Queue, c: Client, k: Key)
    requires Parented(q.jobs) && Evolves(q, q') && HeadsCommitted(q, c)
    ensures Upto(q', c, k) == Upto(q, c, k)
  {
    if k in c.files {
      LineageStable(q.jobs, q'.jobs, c.files[k].id);
    }
  }

  lemma UptoCommitted(q: Queue, c: Client, k: Key, id: JobId)
    requires Parented(q.jobs) && HeadsCommitted(q, c) && id in Upto(q, c, k)
    ensures id in q.jobs && q.jobs[id].Committed() && q.jobs[id].manifest.key == k
    ensures k in c.files && q.jobs[id].number <= q.jobs[c.files[k].id].number
  {
    LineageMembers(q.jobs, c.files[k].id, id);
  }

  lemma ReceiptsExactFrame(q: Queue, q': Queue, d: Device, c: Client)
    requires Parented(q.jobs) && ReceiptsBacked(q.jobs, q.inventory) && Evolves(q, q') && Unmoved(q, q', d, c)
    requires HeadsCommitted(q, c) && ReceiptsExact(q, d, c) && RowsInOrder(q, d, c)
    ensures ReceiptsExact(q', d, c)
  {
    forall id | id in q'.jobs && q'.jobs[id].Committed()
      ensures (d in q'.jobs[id].receipts || AppliedRow(c, id)) <==> (id in Upto(q', c, q'.jobs[id].manifest.key) || id in c.outbox)
    {
      var k := q'.jobs[id].manifest.key;
      UptoStable(q, q', c, k);
      if id in Upto(q, c, k) {
        UptoCommitted(q, c, k, id);
      }
    }
  }

  lemma RowsFrame(q: Queue, q': Queue, d: Device, c: Client)
    requires Parented(q.jobs) && Evolves(q, q') && HeadsCommitted(q, c) && RowsInOrder(q, d, c)
    ensures RowsInOrder(q', d, c)
  {
    forall id | id in c.inbox
      ensures Upto(q', c, c.inbox[id].manifest.key) == Upto(q, c, c.inbox[id].manifest.key)
    {
      UptoStable(q, q', c, c.inbox[id].manifest.key);
    }
  }

  lemma OutboxFrame(q: Queue, q': Queue, d: Device, c: Client)
    requires Parented(q.jobs) && Evolves(q, q') && Unmoved(q, q', d, c) && HeadsCommitted(q, c) && OutboxInOrder(q, d, c)
    ensures OutboxInOrder(q', d, c)
  {
    hide Truthful, Holding;
    forall id | id in c.outbox
      ensures Upto(q', c, c.outbox[id].key) == Upto(q, c, c.outbox[id].key)
      ensures id in q'.jobs ==> id in q.jobs && q'.jobs[id].Committed() == q.jobs[id].Committed()
    {
      UptoStable(q, q', c, c.outbox[id].key);
    }
  }

  lemma DeviceFrame(q: Queue, q': Queue, d: Device, c: Client)
    requires Inv(q) && Evolves(q, q') && Unmoved(q, q', d, c) && DeviceOk(q, d, c)
    ensures DeviceOk(q', d, c)
  {
    ReceiptsExactFrame(q, q', d, c);
    RowsFrame(q, q', d, c);
    OutboxFrame(q, q', d, c);
    RestFrame(q, q', d, c);
    hide Inv, Evolves, Unmoved, HeadsCommitted, ReceiptsExact, RowsInOrder, OutboxInOrder, BlocksKept, StagedFromOutbox;
  }

  lemma RestFrame(q: Queue, q': Queue, d: Device, c: Client)
    requires Evolves(q, q') && Unmoved(q, q', d, c)
    requires HeadsCommitted(q, c) && BlocksKept(q, d, c) && StagedFromOutbox(q, d, c)
    ensures HeadsCommitted(q', c) && BlocksKept(q', d, c) && StagedFromOutbox(q', d, c)
  {
    hide Holding;
  }

  lemma CoreFrame(q: Queue, q': Queue, d: Device, c: Client)
    requires Evolves(q, q') && Unmoved(q, q', d, c) && DeviceCore(q, d, c)
    ensures DeviceCore(q', d, c)
  {
    hide Truthful, Holding;
  }

  lemma InvFrame(q: Queue, q': Queue, d: Device, c: Client)
    requires Inv(q) && Evolves(q, q') && Unmoved(q, q', d, c) && DeviceInv(q, d, c)
    ensures DeviceInv(q', d, c)
  {
    hide Inv, Evolves, Unmoved, DeviceOk, DeviceCore;
    if c.chose {
      CoreFrame(q, q', d, c);
    } else {
      DeviceFrame(q, q', d, c);
    }
  }

  /** Another device's outbox holds none of the versions of this one. */
  lemma NotMine(q: Queue, d: Device, c: Client, id: JobId)
    requires DeviceInv(q, d, c) && id in q.jobs && q.jobs[id].manifest.origin != d
    ensures id !in c.outbox
  {
    CoreOf(q, d, c);
    hide DeviceInv, Truthful, Holding, HeadsCommitted, RowsKnown, BlocksKept;
  }
}
