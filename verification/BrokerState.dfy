/**
 The broker's durable state and, as functions on it, what each request does.
 A request is one transaction: it either takes effect as a whole or is refused and changes nothing.
 Rows that the tables key by job (job_chunks, needs, recipients, receipts) are kept in the job itself.
 */
module BrokerState {
  import opened Base

  datatype JobId = JobId(n: nat)
  datatype Device = Device(role: nat)
  datatype Dataset = Dataset(n: nat)
  datatype Path = Path(n: nat)
  datatype Key = Key(dataset: Dataset, path: Path)

  datatype Kind = PUT | DELETE
  datatype Chunk = Chunk(hash: Hash, size: nat)

  /** One immutable version of one file. */
  datatype Manifest = Manifest(
    id: JobId, key: Key, origin: Device, parent: Option<JobId>,
    kind: Kind, sha: Option<Hash>, size: nat, chunks: seq<Chunk>)

  /** The injective manifest digest (`mhash`) that receivers echo back. */
  datatype Digest = ManifestHash(manifest: Manifest)

  datatype JobState = STAGING | READY | DELIVERED

  datatype Job = Job(
    manifest: Manifest, number: nat, state: JobState,
    blocks: map<Hash, nat>, needs: set<Hash>, recipients: set<Device>, receipts: set<Device>)
  {
    predicate Committed() { state != STAGING }
  }

  datatype Object = Object(size: nat, complete: bool, progress: nat)

  datatype Queue = Queue(
    quota: nat,
    datasets: set<Dataset>,
    bindings: set<(Dataset, Device)>,
    jobs: map<JobId, Job>,
    order: seq<JobId>,
    heads: map<Key, JobId>,
    objects: map<Hash, Object>,
    inventory: map<(Device, Hash), nat>,
    chunks: map<Hash, Bytes>,
    uploads: map<Hash, Bytes>)

  datatype Error =
    | BadManifest | NotOrigin | UnknownDataset | IdentifierClash | VersionConflict | SizeClash | OverQuota
    | NotWritable | NotNeeded | BadObject | BeyondBlock | UnknownJob | Incomplete | BadReceipt
    | CannotRepair | TooManyDatasets | Unavailable | BadOffset

  datatype Outcome<+R> = Done(after: Queue, reply: R) | Refused(why: Error)

  datatype Plan = Plan(state: JobState, needed: map<Hash, Object>)
  datatype Ack = Ack(offset: nat, complete: bool, retry: bool, mismatch: bool)

  const MAX_CHUNKS := 100000
  const MAX_DATASETS := 16

  function Empty(quota: nat): Queue {
    Queue(quota, {}, {}, map[], [], map[], map[], map[], map[], map[])
  }

  // ---------------------------------------------------------------- manifests

  function SumSizes(chunks: seq<Chunk>): nat {
    if chunks == [] then 0 else SumSizes(chunks[..|chunks| - 1]) + chunks[|chunks| - 1].size
  }

  /** Block sizes by hash; a repeated hash keeps the last size listed. */
  function Sizes(chunks: seq<Chunk>): map<Hash, nat> {
    if chunks == [] then map[]
    else Sizes(chunks[..|chunks| - 1])[chunks[|chunks| - 1].hash := chunks[|chunks| - 1].size]
  }

  predicate ValidManifest(m: Manifest) {
    match m.kind
    case DELETE => m.chunks == [] && m.size == 0 && m.sha.None?
    case PUT =>
      && m.sha.Some?
      && |m.chunks| <= MAX_CHUNKS
      && (forall i | 0 <= i < |m.chunks| :: 0 < m.chunks[i].size <= MAX_CHUNK)
      && SumSizes(m.chunks) == m.size
  }

  // ---------------------------------------------------------------- reading the tables

  function HeadOf(q: Queue, k: Key): Option<JobId> {
    if k in q.heads then Some(q.heads[k]) else None
  }

  /** The other devices bound to a dataset. */
  function Others(q: Queue, ds: Dataset, role: Device): set<Device> {
    set b | b in q.bindings && b.0 == ds && b.1 != role :: b.1
  }

  function Bound(q: Queue, ds: Dataset): set<Device> {
    set b | b in q.bindings && b.0 == ds :: b.1
  }

  predicate Holds(q: Queue, d: Device, h: Hash, size: nat) {
    (d, h) in q.inventory && q.inventory[(d, h)] == size
  }

  /** Every other bound device, of which there is at least one, already holds the block. */
  predicate HeldByAll(q: Queue, others: set<Device>, h: Hash, size: nat) {
    others != {} && forall o | o in others :: Holds(q, o, h, size)
  }

  function SizesOf(objects: map<Hash, Object>): map<Hash, nat> {
    map h | h in objects :: objects[h].size
  }

  ghost function Allocated(objects: map<Hash, Object>): nat {
    Total(SizesOf(objects))
  }

  ghost function Stored(objects: map<Hash, Object>): nat {
    Total(map h | h in objects :: objects[h].progress)
  }

  function PlanFor(q: Queue, id: JobId): Plan
    requires id in q.jobs
  {
    Plan(q.jobs[id].state, map h | h in q.jobs[id].needs && h in q.objects :: q.objects[h])
  }

  function Absent(sizes: map<Hash, nat>, objects: map<Hash, Object>): map<Hash, nat> {
    map h | h in sizes && h !in objects :: sizes[h]
  }

  function NewObjects(sizes: map<Hash, nat>): map<Hash, Object> {
    map h | h in sizes :: Object(sizes[h], false, 0)
  }

  // ---------------------------------------------------------------- prepare

  function Needed(q: Queue, role: Device, m: Manifest): map<Hash, nat> {
    var sizes := Sizes(m.chunks);
    map h | h in sizes && !HeldByAll(q, Others(q, m.key.dataset, role), h, sizes[h]) :: sizes[h]
  }

  function Staged(q: Queue, role: Device, m: Manifest): Queue {
    var needed := Needed(q, role, m);
    var job := Job(m, |q.order|, STAGING, Sizes(m.chunks), needed.Keys, {role} + Others(q, m.key.dataset, role), {});
    q.(jobs := q.jobs[m.id := job],
       order := q.order + [m.id],
       objects := q.objects + NewObjects(Absent(needed, q.objects)))
  }

  ghost function Prepare(q: Queue, role: Device, m: Manifest): Outcome<Plan> {
    if !ValidManifest(m) then Refused(BadManifest)
    else if m.origin != role then Refused(NotOrigin)
    else if m.key.dataset !in q.datasets then Refused(UnknownDataset)
    else if m.id in q.jobs then
      if q.jobs[m.id].manifest != m then Refused(IdentifierClash) else Done(q, PlanFor(q, m.id))
    else if HeadOf(q, m.key) != m.parent then Refused(VersionConflict)
    else if exists h | h in Sizes(m.chunks) :: h in q.objects && q.objects[h].size != Sizes(m.chunks)[h] then
      Refused(SizeClash)
    else if Allocated(q.objects) + Total(Absent(Needed(q, role, m), q.objects)) > q.quota then Refused(OverQuota)
    else Done(Staged(q, role, m), PlanFor(Staged(q, role, m), m.id))
  }

  // ---------------------------------------------------------------- put

  function Part(q: Queue, h: Hash): Bytes {
    if h in q.uploads then q.uploads[h] else []
  }

  /** How much of a block the broker holds; None when what it holds cannot be that block. */
  function Offset(q: Queue, h: Hash, size: nat): Option<nat> {
    if h in q.chunks then
      if Sha256(q.chunks[h]) == h && |q.chunks[h]| == size then Some(size) else None
    else if |Part(q, h)| > size then None
    else Some(|Part(q, h)|)
  }

  /** The object row rewritten from the files found on disk. */
  function Refreshed(q: Queue, h: Hash, offset: nat): Queue
    requires h in q.objects
  {
    q.(objects := q.objects[h := Object(q.objects[h].size, h in q.chunks, offset)])
  }

  /** Appending a packet; a block that comes out whole is verified, then published or thrown away. */
  function Appended(q: Queue, h: Hash, payload: Bytes): (Queue, Ack)
    requires h in q.objects
  {
    var size := q.objects[h].size;
    var part := Part(q, h) + payload;
    if |part| != size then
      (q.(uploads := q.uploads[h := part], objects := q.objects[h := Object(size, false, |part|)]),
       Ack(|part|, false, false, false))
    else if Sha256(part) != h then
      (q.(uploads := q.uploads - {h}, objects := q.objects[h := Object(size, false, 0)]),
       Ack(0, false, true, true))
    else
      (q.(uploads := q.uploads - {h}, chunks := q.chunks[h := part], objects := q.objects[h := Object(size, true, size)]),
       Ack(size, true, false, false))
  }

  function Upload(q: Queue, role: Device, id: JobId, h: Hash, offset: Option<nat>, payload: Bytes): Outcome<Ack> {
    if id !in q.jobs || q.jobs[id].manifest.origin != role || q.jobs[id].state == DELIVERED then Refused(NotWritable)
    else if h !in q.jobs[id].needs || h !in q.objects then Refused(NotNeeded)
    else
      var size := q.objects[h].size;
      match Offset(q, h, size)
      case None => Refused(BadObject)
      case Some(at) =>
        if payload == [] then Done(Refreshed(q, h, at), Ack(at, at == size, false, false))
        else if offset != Some(at) then Done(Refreshed(q, h, at), Ack(at, at == size, true, false))
        else if at + |payload| > size || |payload| > PACKET then Refused(BeyondBlock)
        else
          var (after, ack) := Appended(q, h, payload);
          Done(after, ack)
  }

  // ---------------------------------------------------------------- commit

  /** The objects a job was told to upload whose rows still exist. */
  function Tracked(q: Queue, id: JobId): set<Hash>
    requires id in q.jobs
  {
    set h | h in q.jobs[id].needs && h in q.objects
  }

  predicate Uploaded(q: Queue, id: JobId)
    requires id in q.jobs
  {
    forall h | h in Tracked(q, id) :: Offset(q, h, q.objects[h].size) == Some(q.objects[h].size)
  }

  /** The inventory after a device has declared the blocks of a version; rows already there keep their size. */
  function Stocked(inventory: map<(Device, Hash), nat>, d: Device, chunks: seq<Chunk>): map<(Device, Hash), nat> {
    if chunks == [] then inventory
    else
      var before := Stocked(inventory, d, chunks[..|chunks| - 1]);
      var c := chunks[|chunks| - 1];
      if (d, c.hash) in before then before else before[(d, c.hash) := c.size]
  }

  function Published(q: Queue, id: JobId): Queue
    requires id in q.jobs
  {
    var job := q.jobs[id];
    q.(jobs := q.jobs[id := job.(state := READY, receipts := job.receipts + {job.manifest.origin})],
       heads := q.heads[job.manifest.key := id],
       inventory := Stocked(q.inventory, job.manifest.origin, job.manifest.chunks),
       objects := map h | h in q.objects ::
         if h in Tracked(q, id) then Object(q.objects[h].size, h in q.chunks, q.objects[h].size) else q.objects[h])
  }

  function Commit(q: Queue, role: Device, id: JobId): Outcome<Digest> {
    if id !in q.jobs || q.jobs[id].manifest.origin != role then Refused(UnknownJob)
    else if q.jobs[id].Committed() then Done(q, ManifestHash(q.jobs[id].manifest))
    else if HeadOf(q, q.jobs[id].manifest.key) != q.jobs[id].manifest.parent then Refused(VersionConflict)
    else if !Uploaded(q, id) then Refused(Incomplete)
    else Done(Published(q, id), ManifestHash(q.jobs[id].manifest))
  }

  // ---------------------------------------------------------------- ack and gc

  function Receipted(q: Queue, role: Device, id: JobId): Queue
    requires id in q.jobs
  {
    var job := q.jobs[id];
    var receipts := job.receipts + {role};
    var state := if |job.recipients| >= 2 && job.recipients <= receipts then DELIVERED else job.state;
    q.(jobs := q.jobs[id := job.(receipts := receipts, state := state)],
       inventory := Stocked(q.inventory, role, job.manifest.chunks))
  }

  /** The first of the two transactions of an acknowledgement. */
  function Receipt(q: Queue, role: Device, id: JobId, digest: Digest): Outcome<()> {
    if id !in q.jobs || !q.jobs[id].Committed() || ManifestHash(q.jobs[id].manifest) != digest then Refused(BadReceipt)
    else Done(Receipted(q, role, id), ())
  }

  /** No job that is still to be delivered refers to the block. */
  predicate Obsolete(q: Queue, h: Hash) {
    forall id | id in q.jobs && h in q.jobs[id].blocks :: q.jobs[id].state == DELIVERED
  }

  function Garbage(q: Queue): set<Hash> {
    set h | h in q.objects && Obsolete(q, h)
  }

  function Gc(q: Queue): Queue {
    q.(objects := q.objects - Garbage(q), chunks := q.chunks - Garbage(q), uploads := q.uploads - Garbage(q))
  }

  function Acknowledge(q: Queue, role: Device, id: JobId, digest: Digest): Outcome<()> {
    match Receipt(q, role, id, digest)
    case Refused(why) => Refused(why)
    case Done(after, _) => Done(Gc(after), ())
  }

  // ---------------------------------------------------------------- bindings, repairs, upgrade

  function CreateDataset(q: Queue, ds: Dataset): Outcome<()> {
    if ds !in q.datasets && |q.datasets| >= MAX_DATASETS then Refused(TooManyDatasets)
    else Done(q.(datasets := q.datasets + {ds}), ())
  }

  function Subscribed(job: Job, role: Device): Job {
    job.(recipients := job.recipients + {role},
         state := if job.state == DELIVERED && role !in job.receipts then READY else job.state)
  }

  function Bind(q: Queue, role: Device, ds: Dataset): Outcome<()> {
    if ds !in q.datasets then Refused(UnknownDataset)
    else
      Done(q.(bindings := q.bindings + {(ds, role)},
              jobs := map id | id in q.jobs ::
                if q.jobs[id].manifest.key.dataset == ds then Subscribed(q.jobs[id], role) else q.jobs[id]), ())
  }

  function Unbind(q: Queue, role: Device, ds: Dataset): Outcome<()> {
    if ds !in q.datasets then Refused(UnknownDataset)
    else Done(q.(bindings := q.bindings - {(ds, role)}), ())
  }

  /** Another recipient of the job has neither acknowledged it nor holds the block. */
  predicate Wanted(q: Queue, job: Job, h: Hash) {
    exists t | t in job.recipients :: t != job.manifest.origin && t !in job.receipts && (t, h) !in q.inventory
  }

  predicate Repairable(q: Queue, role: Device, ds: Dataset, id: JobId)
    requires id in q.jobs
  {
    var job := q.jobs[id];
    && job.manifest.key.dataset == ds && job.manifest.origin == role && job.state == READY
    && exists h | h in job.blocks :: !(h in q.objects && q.objects[h].complete) && Wanted(q, job, h)
  }

  /** The versions a source device is asked to upload again. */
  function Repairs(q: Queue, role: Device, ds: Dataset): set<JobId> {
    set id | id in q.jobs && Repairable(q, role, ds, id)
  }

  function Missing(q: Queue, job: Job): map<Hash, nat> {
    map h | h in job.blocks && Wanted(q, job, h) :: job.blocks[h]
  }

  function Restaged(q: Queue, id: JobId): Queue
    requires id in q.jobs
  {
    var missing := Missing(q, q.jobs[id]);
    q.(jobs := q.jobs[id := q.jobs[id].(needs := q.jobs[id].needs + missing.Keys)],
       objects := q.objects + NewObjects(Absent(missing, q.objects)))
  }

  ghost function RepairPrepare(q: Queue, role: Device, id: JobId): Outcome<Plan> {
    if id !in q.jobs || q.jobs[id].manifest.origin != role || q.jobs[id].state != READY then Refused(CannotRepair)
    else if Allocated(q.objects) + Total(Absent(Missing(q, q.jobs[id]), q.objects)) > q.quota then Refused(OverQuota)
    else Done(Restaged(q, id), PlanFor(Restaged(q, id), id).(state := STAGING))
  }

  function Upgrade(q: Queue): Queue {
    q.(jobs := map id | id in q.jobs ::
         q.jobs[id].(recipients := q.jobs[id].recipients + {q.jobs[id].manifest.origin}
                                   + Bound(q, q.jobs[id].manifest.key.dataset)))
  }

  // ---------------------------------------------------------------- pending and get

  predicate Awaits(q: Queue, role: Device, ds: Dataset, id: JobId)
    requires id in q.jobs
  {
    q.jobs[id].manifest.key.dataset == ds && q.jobs[id].state == READY && role !in q.jobs[id].receipts
  }

  /** What a device still has to receive, in staging order. */
  function Pending(q: Queue, role: Device, ds: Dataset): seq<JobId> {
    Select(q.order, set id | id in q.jobs && Awaits(q, role, ds, id))
  }

  /** Blocks that `get` serves for a job. */
  predicate Served(q: Queue, id: JobId, h: Hash) {
    id in q.jobs && q.jobs[id].state == READY && h in q.jobs[id].blocks && h in q.chunks
  }

  function Get(q: Queue, id: JobId, h: Hash, offset: nat): Outcome<Bytes> {
    if !Served(q, id, h) then Refused(Unavailable)
    else if offset > |q.chunks[h]| then Refused(BadOffset)
    else Done(q, q.chunks[h][offset..Min(offset + PACKET, |q.chunks[h]|)])
  }
}
