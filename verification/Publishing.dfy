/** Publishing or repairing one version, and every state a crash can leave behind. */
module Publishing {
  import opened Base
  import opened BrokerState
  import opened BrokerInvariants
  import opened BrokerGuarantees
  import opened ClientState

  /** The broker once a set of blocks is uploaded and verified. */
  function Filled(q: Queue, hs: set<Hash>): Queue {
    q.(chunks := q.chunks + map h | h in hs :: h.preimage,
       uploads := q.uploads - hs,
       objects := q.objects + map h | h in hs :: Object(|h.preimage|, true, |h.preimage|))
  }

  /** The broker once it holds a number of leading bytes of a block. */
  function Partly(q: Queue, h: Hash, n: nat): Queue
    requires n <= |h.preimage|
  {
    q.(uploads := q.uploads[h := h.preimage[..n]], objects := q.objects[h := Object(|h.preimage|, false, n)])
  }

  function Wanting(plan: Plan): set<Hash> {
    if plan.state == STAGING then plan.needed.Keys else {}
  }

  /** The cache can supply every block the broker asked for. */
  predicate Supplies(c: Client, plan: Plan) {
    forall h | h in Wanting(plan) :: h in c.cache && plan.needed[h].size == |h.preimage|
  }

  ghost predicate Publishes(c: Client, q: Queue, m: Manifest) {
    var plan := Prepare(q, c.role, m);
    plan.Done? && Supplies(c, plan.reply) && Commit(Filled(plan.after, Wanting(plan.reply)), c.role, m.id).Done?
  }

  ghost function PublishedBy(c: Client, q: Queue, m: Manifest): Queue
    requires Publishes(c, q, m)
  {
    var plan := Prepare(q, c.role, m);
    Commit(Filled(plan.after, Wanting(plan.reply)), c.role, m.id).after
  }

  ghost predicate Fixes(c: Client, q: Queue, id: JobId) {
    var plan := RepairPrepare(q, c.role, id);
    plan.Done? && Supplies(c, plan.reply)
  }

  ghost function FixedBy(c: Client, q: Queue, id: JobId): Queue
    requires Fixes(c, q, id)
  {
    var plan := RepairPrepare(q, c.role, id);
    Filled(plan.after, Wanting(plan.reply))
  }

  datatype Stop =
    | Resting(done: set<Hash>)                         // staged, with some blocks uploaded
    | Uploading(done: set<Hash>, h: Hash, bytes: nat)  // some blocks are uploaded, and part of one more
    | Committing                                       // committed, but not yet recorded locally

  ghost predicate Stoppable(c: Client, q: Queue, m: Manifest, s: Stop) {
    var plan := Prepare(q, c.role, m);
    && plan.Done?
    && (s.Resting? ==> s.done <= Wanting(plan.reply))
    && (s.Uploading? ==> s.done <= Wanting(plan.reply) && s.h in Wanting(plan.reply) && s.bytes <= |s.h.preimage|)
    && (s.Committing? ==> Publishes(c, q, m))
  }

  ghost function StoppedBy(c: Client, q: Queue, m: Manifest, s: Stop): Queue
    requires Stoppable(c, q, m, s)
  {
    match s
    case Resting(done) => Filled(Prepare(q, c.role, m).after, done)
    case Uploading(done, h, bytes) => Partly(Filled(Prepare(q, c.role, m).after, done), h, bytes)
    case Committing => PublishedBy(c, q, m)
  }

  // ---------------------------------------------------------------- recovery

  /** Blocks filled over a half-filled broker end the same. */
  lemma FilledOver(q: Queue, done: set<Hash>, h: Hash, n: nat, all: set<Hash>)
    requires done <= all && h in all && n <= |h.preimage|
    ensures Filled(Partly(Filled(q, done), h, n), all) == Filled(q, all)
  {
    Overlay(q.objects, map b | b in done :: Object(|b.preimage|, true, |b.preimage|), h, Object(|h.preimage|, false, n),
            map b | b in all :: Object(|b.preimage|, true, |b.preimage|));
    assert q.chunks + (map b | b in done :: b.preimage) + (map b | b in all :: b.preimage)
           == q.chunks + (map b | b in all :: b.preimage);
    assert (q.uploads - done)[h := h.preimage[..n]] - all == q.uploads - all;
  }

  lemma Overlay(a: map<Hash, Object>, some: map<Hash, Object>, h: Hash, o: Object, all: map<Hash, Object>)
    requires some.Keys <= all.Keys && h in all
    ensures (a + some)[h := o] + all == a + all
  {
  }

  /** Uploading does not change what the version still asks for, only how far it got. */
  lemma PlanKept(q: Queue, id: JobId, done: set<Hash>, h: Hash, n: nat)
    requires id in q.jobs && done + {h} <= PlanFor(q, id).needed.Keys && n <= |h.preimage|
    requires forall b | b in PlanFor(q, id).needed :: PlanFor(q, id).needed[b].size == |b.preimage|
    ensures var plan := PlanFor(q, id); var half := PlanFor(Partly(Filled(q, done), h, n), id);
      half.state == plan.state && half.needed.Keys == plan.needed.Keys
      && forall b | b in plan.needed :: half.needed[b].size == plan.needed[b].size
  {
  }

  /** After power loss anywhere in a publication, publishing the saved outbox version again ends as the first try would have. */
  lemma PublicationRecovers(c: Client, q: Queue, m: Manifest, s: Stop)
    requires Publishes(c, q, m) && Stoppable(c, q, m, s)
    ensures var q' := StoppedBy(c, q, m, s); Publishes(c, q', m) && PublishedBy(c, q', m) == PublishedBy(c, q, m)
  {
    match s
    case Resting(done) =>
      PreparedJob(q, c.role, m);
      var q1 := Prepare(q, c.role, m).after;
      FoundAgain(q1, Filled(q1, done), c.role, m);
      hide Prepare, Commit, PlanFor;
      SomeUploaded(c, q1, m.id, done);
      hide Filled, Supplies, Wanting;
    case Uploading(done, h, n) =>
      PreparedJob(q, c.role, m);
      var q1 := Prepare(q, c.role, m).after;
      var q' := Partly(Filled(q1, done), h, n);
      FoundAgain(q1, q', c.role, m);
      hide Prepare, Commit, PlanFor;
      HalfUploaded(c, q1, m.id, done, h, n);
      hide Filled, Partly, Supplies, Wanting;
    case Committing => CommittedPublishes(c, q, m);
  }

  lemma SomeUploaded(c: Client, q: Queue, id: JobId, done: set<Hash>)
    requires id in q.jobs && Supplies(c, PlanFor(q, id)) && done <= Wanting(PlanFor(q, id))
    ensures var q' := Filled(q, done);
      && Supplies(c, PlanFor(q', id))
      && Filled(q', Wanting(PlanFor(q', id))) == Filled(q, Wanting(PlanFor(q, id)))
  {
    var plan := PlanFor(q, id);
    var half := PlanFor(Filled(q, done), id);
    assert half.state == plan.state && half.needed.Keys == plan.needed.Keys;
    assert forall h | h in Wanting(plan) :: half.needed[h].size == plan.needed[h].size;
    FilledTwice(q, done, Wanting(plan));
  }

  lemma FilledTwice(q: Queue, some: set<Hash>, all: set<Hash>)
    ensures Filled(Filled(q, some), all) == Filled(q, some + all)
    ensures some <= all ==> some + all == all
  {
    ChunksTwice(q, some, all);
    ObjectsTwice(q, some, all);
    assert q.uploads - some - all == q.uploads - (some + all);
  }

  lemma ChunksTwice(q: Queue, some: set<Hash>, all: set<Hash>)
    ensures q.chunks + (map h | h in some :: h.preimage) + (map h | h in all :: h.preimage)
         == q.chunks + map h | h in some + all :: h.preimage
  {
    LaidTwice(q.chunks, map h | h in some :: h.preimage, map h | h in all :: h.preimage, map h | h in some + all :: h.preimage);
  }

  lemma ObjectsTwice(q: Queue, some: set<Hash>, all: set<Hash>)
    ensures q.objects + (map h | h in some :: Object(|h.preimage|, true, |h.preimage|))
            + (map h | h in all :: Object(|h.preimage|, true, |h.preimage|))
         == q.objects + map h | h in some + all :: Object(|h.preimage|, true, |h.preimage|)
  {
    LaidTwice(q.objects, map h | h in some :: Object(|h.preimage|, true, |h.preimage|),
              map h | h in all :: Object(|h.preimage|, true, |h.preimage|),
              map h | h in some + all :: Object(|h.preimage|, true, |h.preimage|));
  }

  lemma LaidTwice<V>(base: map<Hash, V>, a: map<Hash, V>, b: map<Hash, V>, both: map<Hash, V>)
    requires both.Keys == a.Keys + b.Keys
    requires forall h | h in both :: (h in a ==> a[h] == both[h]) && (h in b ==> b[h] == both[h])
    ensures base + a + b == base + both
  {
  }

  lemma HalfUploaded(c: Client, q: Queue, id: JobId, done: set<Hash>, h: Hash, n: nat)
    requires id in q.jobs && Supplies(c, PlanFor(q, id)) && n <= |h.preimage|
    requires done <= Wanting(PlanFor(q, id)) && h in Wanting(PlanFor(q, id))
    ensures var q' := Partly(Filled(q, done), h, n);
      && Supplies(c, PlanFor(q', id))
      && Filled(q', Wanting(PlanFor(q', id))) == Filled(q, Wanting(PlanFor(q, id)))
  {
    PlanKept(q, id, done, h, n);
    FilledOver(q, done, h, n, Wanting(PlanFor(q, id)));
  }

  /** A version that is already in the table is found, whatever happened to its objects since. */
  lemma FoundAgain(q: Queue, q': Queue, role: Device, m: Manifest)
    requires m.id in q.jobs && q.jobs[m.id].manifest == m && ValidManifest(m) && m.origin == role && m.key.dataset in q.datasets
    requires q'.jobs == q.jobs && q'.datasets == q.datasets
    ensures Prepare(q', role, m) == Done(q', PlanFor(q', m.id))
  {
  }

  lemma PreparedJob(q: Queue, role: Device, m: Manifest)
    requires Prepare(q, role, m).Done?
    ensures var q' := Prepare(q, role, m).after;
      m.id in q'.jobs && q'.jobs[m.id].manifest == m && Prepare(q, role, m).reply == PlanFor(q', m.id)
      && ValidManifest(m) && m.origin == role && m.key.dataset in q'.datasets
  {
  }

  /** A committed version is published again without uploading or changing anything. */
  lemma CommittedPublishes(c: Client, q: Queue, m: Manifest)
    requires Publishes(c, q, m)
    ensures var q' := PublishedBy(c, q, m); Publishes(c, q', m) && PublishedBy(c, q', m) == q'
  {
    PreparedJob(q, c.role, m);
    var q1 := Prepare(q, c.role, m).after;
    var q2 := Filled(q1, Wanting(PlanFor(q1, m.id)));
    CommitAgain(q2, c.role, m.id);
    var q' := PublishedBy(c, q, m);
    assert q'.jobs[m.id].Committed() && q'.jobs[m.id].manifest == m && q'.datasets == q1.datasets;
    FilledNone(q');
  }

  lemma FilledNone(q: Queue)
    ensures Filled(q, {}) == q
  {
    assert Filled(q, {}).chunks == q.chunks && Filled(q, {}).uploads == q.uploads && Filled(q, {}).objects == q.objects;
  }

  // ---------------------------------------------------------------- packets

  /** A true slice that continues a true prefix leaves a longer true prefix, or the verified block. */
  lemma SliceAppended(q: Queue, h: Hash, payload: Bytes)
    requires h in q.objects && h !in q.chunks && q.objects[h].size == |h.preimage|
    requires Part(q, h) <= h.preimage && |Part(q, h)| + |payload| <= |h.preimage|
    requires payload == h.preimage[|Part(q, h)|..|Part(q, h)| + |payload|]
    ensures var n := |Part(q, h)| + |payload|;
      Appended(q, h, payload).0 == if n == |h.preimage| then Filled(q, {h}) else Partly(q, h, n)
  {
    var n := |Part(q, h)| + |payload|;
    assert Part(q, h) + payload == h.preimage[..n];
    if n == |h.preimage| {
      assert h.preimage[..n] == h.preimage;
      assert Filled(q, {h}).chunks == q.chunks[h := h.preimage];
      assert Filled(q, {h}).objects == q.objects[h := Object(n, true, n)];
    }
  }

  // ---------------------------------------------------------------- repairs

  /** A finished repair puts every block that some waiting recipient lacks back on the broker, verified and served. */
  lemma RepairDelivers(c: Client, q: Queue, id: JobId, h: Hash)
    requires Fixes(c, q, id) && h in Missing(q, q.jobs[id])
    ensures Served(FixedBy(c, q, id), id, h) && Sha256(FixedBy(c, q, id).chunks[h]) == h
  {
    var plan := RepairPrepare(q, c.role, id);
    assert h in plan.after.jobs[id].needs;
    assert h in plan.after.objects;
    assert h in plan.reply.needed;
  }
}
